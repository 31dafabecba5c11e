/** What the association list of a history means: a key has the value that the history gave it last. */
module SetHistories {
  import opened Options
  import opened OrderedSet

  /** The value that a key has after a history that began with an empty set: that of its last insertion, where one that
      may not overwrite counts only if the key had no value, unless a removal came later. */
  function Latest<K(==), V>(ops: seq<Op<K, V>>, h: nat, key: K): Option<V>
    decreases |ops|
  {
    if ops == [] then None else
    var before := Latest(ops[..|ops| - 1], h, key);
    match ops[|ops| - 1]
    case Insert(hash, k, val, overwrite) =>
      if Norm(hash) == h && k == key && (overwrite || before == None) then Some(val) else before
    case Remove(hash, k) => if Norm(hash) == h && k == key then None else before
    case _ => before
  }

  /** No key occurs twice. */
  predicate Unique<K(==), V>(c: seq<Entry<K, V>>) {
    c == [] || (Lookup(c[..|c| - 1], c[|c| - 1].hash, c[|c| - 1].key) == None && Unique(c[..|c| - 1]))
  }

  lemma UniqueSnoc<K, V>(c: seq<Entry<K, V>>, e: Entry<K, V>)
    ensures Unique(c + [e]) <==> Lookup(c, e.hash, e.key) == None && Unique(c)
  {
    assert (c + [e])[..|c|] == c;
  }

  lemma LookupSnoc<K, V>(c: seq<Entry<K, V>>, e: Entry<K, V>, h: nat, key: K)
    ensures Lookup(c + [e], h, key) == if e.hash == h && e.key == key then Some(e.val) else Lookup(c, h, key)
  {
    assert (c + [e])[..|c|] == c;
  }

  lemma {:induction false} UniqueUpdated<K, V>(c: seq<Entry<K, V>>, e: Entry<K, V>)
    requires Unique(c)
    ensures Unique(Updated(c, e))
  {
    if c == [] {
      UniqueSnoc([], e);
      assert [] + [e] == [e];
    } else {
      var n := |c| - 1;
      if c[n].hash == e.hash && c[n].key == e.key {
        UniqueSnoc(c[..n], e);
      } else if Lookup(c[..n], e.hash, e.key) == None {
        UniqueSnoc(c, e);
      } else {
        UniqueUpdated(c[..n], e);
        LookupUpdated(c[..n], e, c[n].hash, c[n].key);
        UniqueSnoc(Updated(c[..n], e), c[n]);
      }
    }
  }

  lemma {:induction false} UniqueRemoved<K, V>(c: seq<Entry<K, V>>, h: nat, key: K, h': nat, key': K)
    requires Unique(c)
    ensures Unique(Removed(c, h, key))
    ensures Lookup(Removed(c, h, key), h', key') == if h' == h && key' == key then None else Lookup(c, h', key')
  {
    if c != [] {
      var n := |c| - 1;
      if c[n].hash != h || c[n].key != key {
        UniqueRemoved(c[..n], h, key, h', key');
        UniqueRemoved(c[..n], h, key, c[n].hash, c[n].key);
        UniqueSnoc(Removed(c[..n], h, key), c[n]);
        LookupSnoc(Removed(c[..n], h, key), c[n], h', key');
      }
    }
  }

  lemma {:induction false} DidLast<K, V>(c: seq<Entry<K, V>>, ops: seq<Op<K, V>>)
    requires ops != []
    ensures DidAll(c, ops) == Did(DidAll(c, ops[..|ops| - 1]), ops[|ops| - 1])
    decreases |ops|
  {
    var n := |ops| - 1;
    if n > 0 {
      assert ops[..n][1..] == ops[1..][..n - 1];
      DidLast(Did(c, ops[0]), ops[1..]);
    }
  }

  /** After every history a key has the value that the history gave it last, and no key is there twice. */
  lemma {:induction false} HasLatest<K, V>(ops: seq<Op<K, V>>, h: nat, key: K)
    ensures Unique(DidAll([], ops))
    ensures Lookup(DidAll([], ops), h, key) == Latest(ops, h, key)
    decreases |ops|
  {
    if ops != [] {
      var n := |ops| - 1;
      var c, op := DidAll([], ops[..n]), ops[n];
      HasLatest(ops[..n], h, key);
      DidLast([], ops);
      match op
      case Insert(hash, k, val, _) =>
        UniqueUpdated(c, Entry(Norm(hash), k, val));
        LookupUpdated(c, Entry(Norm(hash), k, val), h, key);
      case Remove(hash, k) => UniqueRemoved(c, Norm(hash), k, h, key);
      case _ =>
    }
  }

  lemma {:induction false} AnswersAt<K, V>(c: seq<Entry<K, V>>, ops: seq<Op<K, V>>, n: nat)
    requires n < |ops|
    ensures |Answers(c, ops)| == |ops| && Answers(c, ops)[n] == Answer(DidAll(c, ops[..n]), ops[n])
    decreases |ops|
  {
    if n > 0 {
      AnswersAt(Did(c, ops[0]), ops[1..], n - 1);
      assert ops[..n][0] == ops[0] && ops[..n][1..] == ops[1..][..n - 1];
    } else {
      AnswersLength(c, ops);
    }
  }

  lemma {:induction false} AnswersLength<K, V>(c: seq<Entry<K, V>>, ops: seq<Op<K, V>>)
    ensures |Answers(c, ops)| == |ops|
    decreases |ops|
  {
    if ops != [] {
      AnswersLength(Did(c, ops[0]), ops[1..]);
    }
  }

  /** Every call of a history about a key, be it `find`, an insertion or a removal, reports the value that the calls before
      it gave that key last. */
  lemma AnswersLatest<K, V>(ops: seq<Op<K, V>>, n: nat)
    requires n < |ops| && (ops[n].Insert? || ops[n].Find? || ops[n].Remove?)
    ensures |Answers([], ops)| == |ops| && Answers([], ops)[n] == Latest(ops[..n], Norm(ops[n].hash), ops[n].key)
  {
    AnswersAt([], ops, n);
    HasLatest(ops[..n], Norm(ops[n].hash), ops[n].key);
  }
}
