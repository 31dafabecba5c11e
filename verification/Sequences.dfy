/** Concatenation of sequences. */
module Sequences {

  /** The sequences one after the other. */
  function Flat<T>(parts: seq<seq<T>>): seq<T> {
    if parts == [] then [] else parts[0] + Flat(parts[1..])
  }

  lemma {:induction false} FlatSnoc<T>(a: seq<seq<T>>, b: seq<T>)
    ensures Flat(a + [b]) == Flat(a) + b
  {
    if a == [] {
      assert [b][1..] == [];
    } else {
      FlatSnoc(a[1..], b);
      assert (a + [b])[1..] == a[1..] + [b];
      Regroup(a[0], Flat(a[1..]), b);
    }
  }

  lemma Regroup<T>(a: seq<T>, b: seq<T>, c: seq<T>)
    ensures a + (b + c) == (a + b) + c
  {
  }
}
