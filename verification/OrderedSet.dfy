/** The ordered Set / Hash Map: entries in insertion order, and an open-addressed map of slots that index
    them. Keys are compared by equality; a Set without keys has one key for every object that compares
    equal to it. Attack mode is not modelled: what is promised holds while the attack flag is clear. */
module OrderedSet {
  import opened Options

  const FORCE := 0xFFFF_FFFF_FFFF_FFFF  // the hash used instead of 0
  const STRIDE := 11                    // slots between two probes
  const MAX_SEEK := 96
  const MAX_FULL_COLLISIONS := 96

  /** A slot of the map: a hash (0 for an empty slot) and the entry it indexes (-1 for none). */
  datatype Slot = Slot(hash: nat, at: int)

  const EMPTY := Slot(0, -1)

  /** An entry of the ordered array; a removed one has hash 0. */
  datatype Entry<K, V> = Entry(hash: nat, key: K, val: V)

  function Norm(hash: nat): nat {
    if hash == 0 then FORCE else hash
  }

  function Pow2(n: nat): (r: nat)
    ensures r > 0
  {
    if n == 0 then 1 else 2 * Pow2(n - 1)
  }

  // ---------------------------------------------------------------------------------------------
  // Probing

  /** How hashes are rotated, and the number of bits of a slot's number. */
  datatype Geometry = Geometry(alt: (nat, nat) -> nat, bits: nat)

  function Capa(g: Geometry): (r: nat)
    ensures r > 0
  {
    Pow2(g.bits)
  }

  /** Probes after the first. */
  function Seek(g: Geometry): nat {
    if Capa(g) > 4 * MAX_SEEK then MAX_SEEK else Capa(g) / 4
  }

  /** The low bits of a sum; `capa` is a power of 2. */
  function Masked(start: nat, i: nat, capa: nat): (p: nat)
    requires capa > 0
    ensures p < capa
  {
    (start + i) % capa
  }

  function Spot(g: Geometry, h: nat, j: nat): (p: nat)
    ensures p < Capa(g)
  {
    Masked(g.alt(h, g.bits), STRIDE * j, Capa(g))
  }

  /** Slots index entries of their own hash, no two the same one. */
  ghost predicate Back<K(!new), V(!new)>(m: seq<Slot>, o: seq<Entry<K, V>>) {
    && (forall p :: 0 <= p < |m| ==>
          -1 <= m[p].at < |o| && (m[p].hash == 0 ==> m[p].at == -1) && (m[p].at >= 0 ==> o[m[p].at].hash == m[p].hash))
    && (forall p, q :: 0 <= p < q < |m| && m[p].at >= 0 ==> m[p].at != m[q].at)
  }

  /** The search for the key ends at the slot: it is empty, a hole of the same hash, or the key's own. */
  predicate Stops<K(==), V>(m: seq<Slot>, o: seq<Entry<K, V>>, p: nat, h: nat, key: K)
    requires p < |m| && m[p].at < |o|
  {
    m[p].hash == 0 || (m[p].hash == h && (m[p].at < 0 || o[m[p].at].key == key))
  }

  /** The first `j` probes do not end the search. */
  ghost predicate Clear<K(!new), V(!new)>(g: Geometry, m: seq<Slot>, o: seq<Entry<K, V>>, h: nat, key: K, j: nat)
    requires |m| == Capa(g) && Back(m, o)
  {
    forall i: nat :: i < j ==> !Stops(m, o, Spot(g, h, i), h, key)
  }

  /** The entry is reached by probe `j` of its own key. */
  ghost predicate PlacedAt<K(!new), V(!new)>(g: Geometry, m: seq<Slot>, o: seq<Entry<K, V>>, k: nat, j: nat)
    requires |m| == Capa(g) && Back(m, o) && k < |o|
  {
    j <= Seek(g) && m[Spot(g, o[k].hash, j)] == Slot(o[k].hash, k) && Clear(g, m, o, o[k].hash, o[k].key, j)
  }

  ghost predicate Placed<K(!new), V(!new)>(g: Geometry, m: seq<Slot>, o: seq<Entry<K, V>>, k: nat)
    requires |m| == Capa(g) && Back(m, o) && k < |o|
  {
    exists j: nat :: PlacedAt(g, m, o, k, j)
  }

  /** Every live entry is reached by its own probe sequence. */
  ghost predicate Indexed<K(!new), V(!new)>(g: Geometry, m: seq<Slot>, o: seq<Entry<K, V>>) {
    && |m| == Capa(g) && Back(m, o)
    && forall k: nat :: k < |o| && o[k].hash != 0 ==> Placed(g, m, o, k)
  }

  /** No two live entries have both hash and key the same. */
  ghost predicate Distinct<K(!new), V(!new)>(o: seq<Entry<K, V>>) {
    forall k, l :: 0 <= k < l < |o| && o[k].hash != 0 && o[k].hash == o[l].hash ==> o[k].key != o[l].key
  }

  /** No two live entries have the same hash. */
  ghost predicate NoTwins<K(!new), V(!new)>(o: seq<Entry<K, V>>) {
    forall k, l :: 0 <= k < l < |o| && o[k].hash != 0 ==> o[k].hash != o[l].hash
  }

  /** Where a search ends: at the first probe that stops it, or nowhere. */
  ghost predicate EndsAt<K(!new), V(!new)>(g: Geometry, m: seq<Slot>, o: seq<Entry<K, V>>, h: nat, key: K, j: nat)
    requires |m| == Capa(g) && Back(m, o)
  {
    && j <= Seek(g) + 1 && Clear(g, m, o, h, key, j)
    && (j <= Seek(g) ==> Stops(m, o, Spot(g, h, j), h, key))
  }

  /** One of the first `j` probes met another entry of the same hash. */
  ghost predicate Collides(g: Geometry, m: seq<Slot>, h: nat, j: nat)
    requires |m| == Capa(g)
  {
    exists i: nat :: i < j && m[Spot(g, h, i)].hash == h
  }

  /** A probe that does not stop the search, and whether it met the hash. */
  lemma Passed<K(!new), V(!new)>(g: Geometry, m: seq<Slot>, o: seq<Entry<K, V>>, h: nat, key: K, j: nat)
    requires |m| == Capa(g) && Back(m, o) && Clear(g, m, o, h, key, j) && !Stops(m, o, Spot(g, h, j), h, key)
    ensures Clear(g, m, o, h, key, j + 1)
    ensures Collides(g, m, h, j + 1) <==> Collides(g, m, h, j) || m[Spot(g, h, j)].hash == h
  {
  }

  /** The entry with this hash and key. */
  predicate Is<K(==), V>(o: seq<Entry<K, V>>, k: nat, h: nat, key: K) {
    k < |o| && o[k].hash == h && o[k].key == key
  }

  /** The search for the key of a live entry ends at its slot. */
  lemma SearchFinds<K(!new), V(!new)>(g: Geometry, m: seq<Slot>, o: seq<Entry<K, V>>, h: nat, key: K, j: nat, k: nat)
    requires Indexed(g, m, o) && h != 0 && EndsAt(g, m, o, h, key, j) && Is(o, k, h, key)
    ensures j <= Seek(g) && m[Spot(g, h, j)].at == k
  {
    var i: nat :| PlacedAt(g, m, o, k, i);
    assert Stops(m, o, Spot(g, h, i), h, key);
    assert !(i < j) && !(j < i);
  }

  /** A key whose search does not end at an entry shares its hash with a live entry only if the search met
      that entry. */
  lemma TwinIsMet<K(!new), V(!new)>(g: Geometry, m: seq<Slot>, o: seq<Entry<K, V>>, h: nat, key: K, j: nat, k: nat)
    requires Indexed(g, m, o) && h != 0 && EndsAt(g, m, o, h, key, j)
    requires j <= Seek(g) ==> m[Spot(g, h, j)].at < 0
    requires k < |o| && o[k].hash == h
    ensures Collides(g, m, h, j)
  {
    var i: nat :| PlacedAt(g, m, o, k, i);
    assert j <= Seek(g) ==> Stops(m, o, Spot(g, h, j), h, o[k].key);
    assert i < j && m[Spot(g, h, i)].hash == h;
  }

  /** A new entry in the slot where its search ended. */
  lemma PlaceKeeps<K(!new), V(!new)>(g: Geometry, m: seq<Slot>, o: seq<Entry<K, V>>, e: Entry<K, V>, j: nat)
    requires Indexed(g, m, o) && e.hash != 0 && EndsAt(g, m, o, e.hash, e.key, j)
    requires j <= Seek(g) && m[Spot(g, e.hash, j)].at < 0
    ensures Indexed(g, m[Spot(g, e.hash, j) := Slot(e.hash, |o|)], o + [e])
  {
    var p := Spot(g, e.hash, j);
    var m', o' := m[p := Slot(e.hash, |o|)], o + [e];
    assert Back(m', o');
    forall k: nat | k < |o'| && o'[k].hash != 0 ensures Placed(g, m', o', k) {
      if k == |o| {
        forall i: nat | i < j ensures !Stops(m', o', Spot(g, e.hash, i), e.hash, e.key) {
          assert !Stops(m, o, Spot(g, e.hash, i), e.hash, e.key);
        }
        assert PlacedAt(g, m', o', k, j);
      } else {
        var i: nat :| PlacedAt(g, m, o, k, i);
        forall x: nat | x < i ensures !Stops(m', o', Spot(g, o[k].hash, x), o[k].hash, o[k].key) {
          assert !Stops(m, o, Spot(g, o[k].hash, x), o[k].hash, o[k].key);
        }
        assert PlacedAt(g, m', o', k, i);
      }
    }
  }

  /** A removed entry leaves a hole; when no other entry has its hash, no search is cut short by it. */
  lemma HoleKeeps<K(!new), V(!new)>(g: Geometry, m: seq<Slot>, o: seq<Entry<K, V>>, p: nat)
    requires Indexed(g, m, o) && NoTwins(o) && p < |m| && m[p].at >= 0
    ensures var k := m[p].at; Indexed(g, m[p := Slot(m[p].hash, -1)], o[k := o[k].(hash := 0)])
  {
    var k := m[p].at;
    var m', o' := m[p := Slot(m[p].hash, -1)], o[k := o[k].(hash := 0)];
    assert Back(m', o');
    forall l: nat | l < |o'| && o'[l].hash != 0 ensures Placed(g, m', o', l) {
      var i: nat :| PlacedAt(g, m, o, l, i);
      forall x: nat | x < i ensures !Stops(m', o', Spot(g, o[l].hash, x), o[l].hash, o[l].key) {
        assert !Stops(m, o, Spot(g, o[l].hash, x), o[l].hash, o[l].key);
      }
      assert PlacedAt(g, m', o', l, i);
    }
  }

  // ---------------------------------------------------------------------------------------------
  // Removing the last entry

  /** The array without the removed entries at its end. */
  function Trimmed<K, V>(o: seq<Entry<K, V>>): seq<Entry<K, V>> {
    if o == [] || o[|o| - 1].hash != 0 then o else Trimmed(o[..|o| - 1])
  }

  /** A probe of a live entry, before its own, meets the slot of the last entry. */
  ghost predicate PassesLast<K(!new), V(!new)>(g: Geometry, m: seq<Slot>, o: seq<Entry<K, V>>, l: nat, i: nat, x: nat)
    requires |m| == Capa(g) && Back(m, o)
  {
    l + 1 < |o| && o[l].hash != 0 && PlacedAt(g, m, o, l, i) && x < i && m[Spot(g, o[l].hash, x)].at == |o| - 1
  }

  /** The key has the last entry, and the search for another one passes its slot. */
  ghost predicate CutsOff<K(!new), V(!new)>(g: Geometry, m: seq<Slot>, o: seq<Entry<K, V>>, h: nat, key: K) {
    && |m| == Capa(g) && Back(m, o) && o != [] && Is(o, |o| - 1, h, key)
    && exists l: nat, i: nat, x: nat :: PassesLast(g, m, o, l, i, x)
  }

  /** Blanking the slot of the last entry leaves another entry in its place unless that entry's search passes
      the slot. */
  lemma BlankPlaced<K(!new), V(!new)>(g: Geometry, m: seq<Slot>, o: seq<Entry<K, V>>, p: nat, l: nat, i: nat)
    requires Indexed(g, m, o) && p < |m| && o != [] && m[p].at == |o| - 1 && l + 1 < |o| && o[l].hash != 0
    requires PlacedAt(g, m, o, l, i) && Back(m[p := EMPTY], o[..|o| - 1])
    ensures PlacedAt(g, m[p := EMPTY], o[..|o| - 1], l, i) <==> forall x: nat | x < i :: !PassesLast(g, m, o, l, i, x)
  {
    var m', o', h, key := m[p := EMPTY], o[..|o| - 1], o[l].hash, o[l].key;
    forall x: nat | x < i ensures Stops(m', o', Spot(g, h, x), h, key) <==> PassesLast(g, m, o, l, i, x) {
      assert !Stops(m, o, Spot(g, h, x), h, key);
    }
    assert m'[Spot(g, h, i)] == m[Spot(g, h, i)];
  }

  /** Removing the last entry keeps every other entry reachable if and only if no search passes its slot. */
  lemma CutKeepsIff<K(!new), V(!new)>(g: Geometry, m: seq<Slot>, o: seq<Entry<K, V>>, p: nat)
    requires Indexed(g, m, o) && p < |m| && o != [] && m[p].at == |o| - 1
    ensures Indexed(g, m[p := EMPTY], o[..|o| - 1]) <==> !CutsOff(g, m, o, o[|o| - 1].hash, o[|o| - 1].key)
  {
    var m', o' := m[p := EMPTY], o[..|o| - 1];
    assert Back(m', o');
    if l: nat, i: nat, x: nat :| PassesLast(g, m, o, l, i, x) {
      BlankPlaced(g, m, o, p, l, i);
      if Indexed(g, m', o') {
        var j: nat :| PlacedAt(g, m', o', l, j);
        BlankedWasPlaced(g, m, o, p, l, i, j);
      }
    } else {
      forall l: nat | l < |o'| && o'[l].hash != 0 ensures Placed(g, m', o', l) {
        var i: nat :| PlacedAt(g, m, o, l, i);
        BlankPlaced(g, m, o, p, l, i);
      }
    }
  }

  lemma BlankedWasPlaced<K(!new), V(!new)>(g: Geometry, m: seq<Slot>, o: seq<Entry<K, V>>, p: nat, l: nat, i: nat, j: nat)
    requires Indexed(g, m, o) && p < |m| && o != [] && m[p].at == |o| - 1 && l + 1 < |o| && o[l].hash != 0
    requires PlacedAt(g, m, o, l, i) && Back(m[p := EMPTY], o[..|o| - 1]) && PlacedAt(g, m[p := EMPTY], o[..|o| - 1], l, j)
    ensures i == j
  {
    var m', o', h, key := m[p := EMPTY], o[..|o| - 1], o[l].hash, o[l].key;
    assert m[Spot(g, h, j)] == m'[Spot(g, h, j)] && m'[Spot(g, h, i)] == m[Spot(g, h, i)];
    assert Stops(m, o, Spot(g, h, j), h, key) && Stops(m', o', Spot(g, h, i), h, key);
  }

  /** Removed entries at the end of the array do not matter. */
  lemma {:induction false} TrimKeepsIff<K(!new), V(!new)>(g: Geometry, m: seq<Slot>, o: seq<Entry<K, V>>)
    ensures Indexed(g, m, Trimmed(o)) <==> Indexed(g, m, o)
    decreases |o|
  {
    if o != [] && o[|o| - 1].hash == 0 {
      DeadEndKeeps(g, m, o);
      TrimKeepsIff(g, m, o[..|o| - 1]);
    }
  }

  lemma DeadEndKeeps<K(!new), V(!new)>(g: Geometry, m: seq<Slot>, o: seq<Entry<K, V>>)
    requires o != [] && o[|o| - 1].hash == 0
    ensures Indexed(g, m, o[..|o| - 1]) <==> Indexed(g, m, o)
  {
    var o' := o[..|o| - 1];
    assert Back(m, o) <==> Back(m, o');
    if |m| == Capa(g) && Back(m, o) {
      forall k: nat | k < |o'| && o[k].hash != 0 ensures Placed(g, m, o', k) <==> Placed(g, m, o, k) {
        forall j: nat ensures PlacedAt(g, m, o', k, j) <==> PlacedAt(g, m, o, k, j) {
          forall x: nat ensures Stops(m, o', Spot(g, o[k].hash, x), o[k].hash, o[k].key)
                           <==> Stops(m, o, Spot(g, o[k].hash, x), o[k].hash, o[k].key) {
          }
        }
      }
    }
  }

  // ---------------------------------------------------------------------------------------------
  // The association list

  /** The live entries, in insertion order; this is what iteration visits. */
  function Live<K, V>(o: seq<Entry<K, V>>): seq<Entry<K, V>> {
    if o == [] then [] else
      var n := |o| - 1;
      Live(o[..n]) + if o[n].hash != 0 then [o[n]] else []
  }

  function Lookup<K(==), V>(c: seq<Entry<K, V>>, h: nat, key: K): Option<V> {
    if c == [] then None else
      var n := |c| - 1;
      if c[n].hash == h && c[n].key == key then Some(c[n].val) else Lookup(c[..n], h, key)
  }

  /** The entry's value replaces that of its key, in place; a new key comes last. */
  function Updated<K(==), V>(c: seq<Entry<K, V>>, e: Entry<K, V>): seq<Entry<K, V>> {
    if c == [] then [e] else
      var n := |c| - 1;
      if c[n].hash == e.hash && c[n].key == e.key then c[..n] + [e]
      else if Lookup(c[..n], e.hash, e.key) == None then c + [e]
      else Updated(c[..n], e) + [c[n]]
  }

  function Removed<K(==), V>(c: seq<Entry<K, V>>, h: nat, key: K): seq<Entry<K, V>> {
    if c == [] then [] else
      var n := |c| - 1;
      if c[n].hash == h && c[n].key == key then c[..n] else Removed(c[..n], h, key) + [c[n]]
  }

  lemma LiveAppend<K, V>(o: seq<Entry<K, V>>, e: Entry<K, V>)
    ensures Live(o + [e]) == Live(o) + if e.hash != 0 then [e] else []
  {
    assert (o + [e])[..|o|] == o;
  }

  /** The live entries of a non-empty array are those of all but its last one, and that one if it is live. */
  lemma LiveLast<K, V>(o: seq<Entry<K, V>>)
    requires o != []
    ensures var n, c := |o| - 1, Live(o);
      if o[n].hash != 0 then c != [] && c[|c| - 1] == o[n] && c[..|c| - 1] == Live(o[..n]) else c == Live(o[..n])
  {
  }

  lemma {:induction false} LiveSize<K, V>(o: seq<Entry<K, V>>)
    ensures |Live(o)| <= |o| && (|Live(o)| == |o| ==> Live(o) == o)
    ensures forall e :: e in Live(o) ==> e.hash != 0
  {
    if o != [] {
      LiveSize(o[..|o| - 1]);
    }
  }

  lemma {:induction false} LiveIn<K, V>(o: seq<Entry<K, V>>, e: Entry<K, V>)
    requires e in Live(o)
    ensures exists k :: 0 <= k < |o| && o[k] == e && e.hash != 0
  {
    var n := |o| - 1;
    if e in Live(o[..n]) {
      LiveIn(o[..n], e);
    } else {
      assert o[n] == e;
    }
  }

  lemma {:induction false} LiveDistinct<K(!new), V(!new)>(o: seq<Entry<K, V>>)
    requires Distinct(o)
    ensures Distinct(Live(o))
  {
    if o != [] {
      var n := |o| - 1;
      LiveDistinct(o[..n]);
      var c := Live(o[..n]);
      if o[n].hash != 0 {
        forall k | 0 <= k < |c| && c[k].hash == o[n].hash ensures c[k].key != o[n].key {
          LiveIn(o[..n], c[k]);
        }
      }
    }
  }

  lemma {:induction false} LookupLive<K(!new), V(!new)>(o: seq<Entry<K, V>>, h: nat, key: K, k: nat)
    requires Distinct(o) && h != 0 && Is(o, k, h, key)
    ensures Lookup(Live(o), h, key) == Some(o[k].val)
  {
    var n := |o| - 1;
    LiveLast(o);
    if k < n {
      LookupLive(o[..n], h, key, k);
    }
  }

  lemma {:induction false} LookupAbsent<K(!new), V(!new)>(o: seq<Entry<K, V>>, h: nat, key: K)
    requires h != 0 && forall k: nat :: !Is(o, k, h, key)
    ensures Lookup(Live(o), h, key) == None
  {
    if o != [] {
      var n := |o| - 1;
      LiveLast(o);
      forall k: nat ensures !Is(o[..n], k, h, key) {
        assert !Is(o, k, h, key);
      }
      LookupAbsent(o[..n], h, key);
      assert !Is(o, n, h, key);
    }
  }

  lemma UpdatedAbsent<K(!new), V(!new)>(c: seq<Entry<K, V>>, e: Entry<K, V>)
    requires Lookup(c, e.hash, e.key) == None
    ensures Updated(c, e) == c + [e]
  {
  }

  lemma {:induction false} LiveUpdate<K(!new), V(!new)>(o: seq<Entry<K, V>>, k: nat, e: Entry<K, V>)
    requires Distinct(o) && e.hash != 0 && Is(o, k, e.hash, e.key)
    ensures Live(o[k := e]) == Updated(Live(o), e)
  {
    hide Live, Lookup;
    var n, o' := |o| - 1, o[k := e];
    LiveLast(o);
    LiveLast(o');
    if k < n {
      LiveUpdate(o[..n], k, e);
      LookupLive(o[..n], e.hash, e.key, k);
      assert o'[..n] == o[..n][k := e];
    } else {
      assert o'[..n] == o[..n];
    }
  }

  lemma {:induction false} LiveKill<K(!new), V(!new)>(o: seq<Entry<K, V>>, k: nat)
    requires Distinct(o) && k < |o| && o[k].hash != 0
    ensures Live(o[k := o[k].(hash := 0)]) == Removed(Live(o), o[k].hash, o[k].key)
  {
    var n, o' := |o| - 1, o[k := o[k].(hash := 0)];
    LiveLast(o);
    LiveLast(o');
    if k < n {
      LiveKill(o[..n], k);
      assert o'[..n] == o[..n][k := o[k].(hash := 0)];
    } else {
      assert o'[..n] == o[..n];
    }
  }

  lemma {:induction false} LiveAll<K, V>(o: seq<Entry<K, V>>)
    requires Live(o) == o
    ensures forall k :: 0 <= k < |o| ==> o[k].hash != 0
  {
    LiveSize(o);
    forall k | 0 <= k < |o| ensures o[k].hash != 0 {
      assert o[k] in Live(o);
    }
  }

  lemma {:induction false} AllLive<K, V>(o: seq<Entry<K, V>>)
    requires forall k :: 0 <= k < |o| ==> o[k].hash != 0
    ensures Live(o) == o
  {
    if o != [] {
      AllLive(o[..|o| - 1]);
    }
  }

  lemma LiveTwice<K, V>(o: seq<Entry<K, V>>)
    ensures Live(Live(o)) == Live(o)
  {
    LiveSize(o);
    forall k | 0 <= k < |Live(o)| ensures Live(o)[k].hash != 0 {
      assert Live(o)[k] in Live(o);
    }
    AllLive(Live(o));
  }

  /** The first `r` entries are packed into the first `w` places, the others are where they were. */
  ghost predicate Packed<K(!new), V(!new)>(was: seq<Entry<K, V>>, o: seq<Entry<K, V>>, r: nat, w: nat) {
    w <= r <= |o| == |was| && o[..w] == Live(was[..r]) && forall i :: r <= i < |o| ==> o[i] == was[i]
  }

  lemma PackOne<K(!new), V(!new)>(was: seq<Entry<K, V>>, o: seq<Entry<K, V>>, r: nat, w: nat)
    requires Packed(was, o, r, w) && r < |o|
    ensures if o[r].hash != 0 then Packed(was, o[w := o[r]], r + 1, w + 1) else Packed(was, o, r + 1, w)
  {
    assert was[..r + 1] == was[..r] + [was[r]];
    LiveAppend(was[..r], was[r]);
    assert o[w := o[r]][..w + 1] == o[..w] + [o[r]];
  }

  lemma AllPacked<K(!new), V(!new)>(was: seq<Entry<K, V>>, o: seq<Entry<K, V>>, w: nat)
    requires Packed(was, o, |o|, w)
    ensures w <= |o| && o[..w] == Live(was)
  {
    assert was[..|o|] == was;
  }

  lemma NonePacked<K(!new), V(!new)>(was: seq<Entry<K, V>>)
    ensures Packed(was, was, 0, 0)
  {
  }

  // ---------------------------------------------------------------------------------------------
  // Mapping a part of the array

  lemma BackLonger<K(!new), V(!new)>(m: seq<Slot>, o: seq<Entry<K, V>>, k: nat)
    requires k <= |o| && Back(m, o[..k])
    ensures Back(m, o)
  {
  }

  lemma EndsShorter<K(!new), V(!new)>(g: Geometry, m: seq<Slot>, o: seq<Entry<K, V>>, k: nat, h: nat, key: K, j: nat)
    requires k <= |o| && |m| == Capa(g) && Back(m, o[..k]) && Back(m, o) && EndsAt(g, m, o, h, key, j)
    ensures EndsAt(g, m, o[..k], h, key, j)
  {
    forall i: nat | i < j ensures !Stops(m, o[..k], Spot(g, h, i), h, key) {
      assert !Stops(m, o, Spot(g, h, i), h, key);
    }
  }

  /** The search for an entry that is not mapped yet does not end at another one. */
  lemma StopsAtHole<K(!new), V(!new)>(g: Geometry, m: seq<Slot>, o: seq<Entry<K, V>>, k: nat, j: nat)
    requires k < |o| && |m| == Capa(g) && Back(m, o[..k]) && Distinct(o) && o[k].hash != 0
    requires EndsAt(g, m, o[..k], o[k].hash, o[k].key, j) && j <= Seek(g)
    ensures m[Spot(g, o[k].hash, j)].at < 0
  {
  }

  lemma NewHasNoTwin<K(!new), V(!new)>(g: Geometry, m: seq<Slot>, o: seq<Entry<K, V>>, e: Entry<K, V>, j: nat, met: bool)
    requires Indexed(g, m, o) && e.hash != 0 && EndsAt(g, m, o, e.hash, e.key, j)
    requires j <= Seek(g) ==> m[Spot(g, e.hash, j)].at < 0
    requires !met ==> NoTwins(o) && !Collides(g, m, e.hash, j)
    ensures !met ==> NoTwins(o + [e])
  {
    if !met {
      forall k | 0 <= k < |o| ensures o[k].hash != e.hash {
        if o[k].hash == e.hash { TwinIsMet(g, m, o, e.hash, e.key, j, k); }
      }
    }
  }

  lemma {:induction false} Pow2Mono(a: nat, b: nat)
    requires a <= b
    ensures Pow2(a) <= Pow2(b)
    decreases b
  {
    if a < b {
      Pow2Mono(a, b - 1);
    }
  }

  /** A search of the whole map ends at the key's entry if it has one. */
  lemma EndMeans<K(!new), V(!new)>(g: Geometry, m: seq<Slot>, o: seq<Entry<K, V>>, h: nat, key: K, j: nat)
    requires Indexed(g, m, o) && h != 0 && EndsAt(g, m, o, h, key, j)
    ensures if j <= Seek(g) && m[Spot(g, h, j)].at >= 0 then Is(o, m[Spot(g, h, j)].at, h, key)
            else forall k: nat :: !Is(o, k, h, key)
  {
    if !(j <= Seek(g) && m[Spot(g, h, j)].at >= 0) {
      forall k: nat ensures !Is(o, k, h, key) {
        if Is(o, k, h, key) { SearchFinds(g, m, o, h, key, j, k); }
      }
    }
  }

  lemma AppendDistinct<K(!new), V(!new)>(o: seq<Entry<K, V>>, e: Entry<K, V>)
    requires Distinct(o) && forall k: nat :: !Is(o, k, e.hash, e.key)
    ensures Distinct(o + [e])
  {
    forall k | 0 <= k < |o| && o[k].hash != 0 && o[k].hash == e.hash ensures o[k].key != e.key {
      assert !Is(o, k, e.hash, e.key);
    }
  }

  /** A new value for an entry changes no search. */
  lemma ReplaceKeeps<K(!new), V(!new)>(g: Geometry, m: seq<Slot>, o: seq<Entry<K, V>>, k: nat, e: Entry<K, V>)
    requires Indexed(g, m, o) && Distinct(o) && Is(o, k, e.hash, e.key)
    ensures Indexed(g, m, o[k := e]) && Distinct(o[k := e]) && (NoTwins(o) ==> NoTwins(o[k := e]))
  {
    var o' := o[k := e];
    assert Back(m, o');
    forall l: nat | l < |o'| && o'[l].hash != 0 ensures Placed(g, m, o', l) {
      var i: nat :| PlacedAt(g, m, o, l, i);
      forall x: nat | x < i ensures !Stops(m, o', Spot(g, o[l].hash, x), o[l].hash, o[l].key) {
        assert !Stops(m, o, Spot(g, o[l].hash, x), o[l].hash, o[l].key);
      }
      assert PlacedAt(g, m, o', l, i);
    }
  }

  lemma {:induction false} UpdatedSize<K, V>(c: seq<Entry<K, V>>, e: Entry<K, V>)
    ensures |Updated(c, e)| == |c| + if Lookup(c, e.hash, e.key) == None then 1 else 0
  {
    if c != [] {
      UpdatedSize(c[..|c| - 1], e);
    }
  }

  lemma {:induction false} RemovedSize<K, V>(c: seq<Entry<K, V>>, h: nat, key: K)
    ensures |Removed(c, h, key)| == |c| - if Lookup(c, h, key) == None then 0 else 1
  {
    if c != [] {
      RemovedSize(c[..|c| - 1], h, key);
    }
  }

  lemma {:induction false} RemovedAbsent<K, V>(c: seq<Entry<K, V>>, h: nat, key: K)
    requires Lookup(c, h, key) == None
    ensures Removed(c, h, key) == c
  {
    if c != [] {
      RemovedAbsent(c[..|c| - 1], h, key);
    }
  }

  /** A removed entry in the counts. */
  lemma KillKeepsDistinct<K(!new), V(!new)>(o: seq<Entry<K, V>>, k: nat)
    requires Distinct(o) && k < |o|
    ensures var o' := o[k := o[k].(hash := 0)]; Distinct(o') && (NoTwins(o) ==> NoTwins(o'))
  {
  }

  lemma KillCounts<K(!new), V(!new)>(o: seq<Entry<K, V>>, k: nat)
    requires Distinct(o) && k < |o| && o[k].hash != 0
    ensures var o' := o[k := o[k].(hash := 0)];
      Live(o') == Removed(Live(o), o[k].hash, o[k].key) && |Live(o')| == |Live(o)| - 1 < |o|
  {
    LiveKill(o, k);
    LookupLive(o, o[k].hash, o[k].key, k);
    RemovedSize(Live(o), o[k].hash, o[k].key);
    LiveSize(o);
  }

  /** The keys, in order. */
  function Keys<K, V>(c: seq<Entry<K, V>>): (r: seq<(nat, K)>)
    ensures |r| == |c|
  {
    if c == [] then [] else Keys(c[..|c| - 1]) + [(c[|c| - 1].hash, c[|c| - 1].key)]
  }

  /** An update changes what is found under its own key only. */
  lemma {:induction false} LookupUpdated<K, V>(c: seq<Entry<K, V>>, e: Entry<K, V>, h: nat, key: K)
    ensures Lookup(Updated(c, e), h, key) == if h == e.hash && key == e.key then Some(e.val) else Lookup(c, h, key)
  {
    if c == [] {
      assert [e][..0] == [];
    } else {
      var n := |c| - 1;
      if c[n].hash == e.hash && c[n].key == e.key {
        assert (c[..n] + [e])[..n] == c[..n];
      } else if Lookup(c[..n], e.hash, e.key) == None {
        assert (c + [e])[..|c|] == c;
      } else {
        LookupUpdated(c[..n], e, h, key);
        assert (Updated(c[..n], e) + [c[n]])[..|Updated(c[..n], e)|] == Updated(c[..n], e);
      }
    }
  }

  /** An update keeps the order of the keys; a new key comes last. */
  lemma {:induction false} KeysUpdated<K, V>(c: seq<Entry<K, V>>, e: Entry<K, V>)
    ensures Keys(Updated(c, e)) == Keys(c) + if Lookup(c, e.hash, e.key) == None then [(e.hash, e.key)] else []
  {
    if c == [] {
      assert [e][..0] == [];
    } else {
      var n := |c| - 1;
      if c[n].hash == e.hash && c[n].key == e.key {
        assert (c[..n] + [e])[..n] == c[..n];
      } else if Lookup(c[..n], e.hash, e.key) == None {
        assert (c + [e])[..|c|] == c;
      } else {
        KeysUpdated(c[..n], e);
        assert (Updated(c[..n], e) + [c[n]])[..|Updated(c[..n], e)|] == Updated(c[..n], e);
      }
    }
  }

  /** A removal takes one entry out and leaves the others in order. */
  lemma {:induction false} RemovedAt<K, V>(c: seq<Entry<K, V>>, h: nat, key: K) returns (i: nat)
    requires Lookup(c, h, key) != None
    ensures i < |c| && c[i].hash == h && c[i].key == key && Removed(c, h, key) == c[..i] + c[i + 1..]
  {
    var n := |c| - 1;
    if c[n].hash == h && c[n].key == key {
      i := n;
    } else {
      i := RemovedAt(c[..n], h, key);
      assert c[..n][..i] + c[..n][i + 1..] + [c[n]] == c[..i] + c[i + 1..];
    }
  }

  /** After a removal the key has no entry, and other keys have theirs. */
  lemma {:induction false} LookupRemoved<K(!new), V(!new)>(c: seq<Entry<K, V>>, h: nat, key: K, h': nat, key': K)
    requires Distinct(c) && h != 0
    ensures Lookup(Removed(c, h, key), h', key') == if h' == h && key' == key then None else Lookup(c, h', key')
  {
    if c != [] {
      var n := |c| - 1;
      if c[n].hash == h && c[n].key == key {
        if h' == h && key' == key { NoOther(c[..n], h, key, c[n]); }
      } else {
        LookupRemoved(c[..n], h, key, h', key');
        assert (Removed(c[..n], h, key) + [c[n]])[..|Removed(c[..n], h, key)|] == Removed(c[..n], h, key);
      }
    }
  }

  lemma {:induction false} NoOther<K(!new), V(!new)>(c: seq<Entry<K, V>>, h: nat, key: K, e: Entry<K, V>)
    requires Distinct(c + [e]) && h != 0 && e.hash == h && e.key == key
    ensures Lookup(c, h, key) == None
  {
    if c != [] {
      var n := |c| - 1;
      assert (c + [e])[n] == c[n] && (c + [e])[n + 1] == e;
      forall k, l | 0 <= k < l < |c[..n] + [e]| && (c[..n] + [e])[k].hash != 0 && (c[..n] + [e])[k].hash == (c[..n] + [e])[l].hash
        ensures (c[..n] + [e])[k].key != (c[..n] + [e])[l].key
      {
        assert (c + [e])[k] == (c[..n] + [e])[k];
        assert (c + [e])[if l < n then l else n + 1] == (c[..n] + [e])[l];
      }
      NoOther(c[..n], h, key, e);
    }
  }

  lemma LiveTrim<K, V>(o: seq<Entry<K, V>>, n: nat)
    requires 0 < n <= |o| && o[n - 1].hash == 0
    ensures Live(o[..n - 1]) == Live(o[..n])
  {
    assert o[..n][..n - 1] == o[..n - 1];
    LiveLast(o[..n]);
  }

  /** The key's entry is the one inserted last. */
  predicate IsLast<K(==), V>(c: seq<Entry<K, V>>, h: nat, key: K) {
    c != [] && c[|c| - 1].hash == h && c[|c| - 1].key == key
  }

  /** The last entry of the array, if it is live, is the one inserted last. */
  lemma LastLives<K, V>(o: seq<Entry<K, V>>, h: nat, key: K)
    requires h != 0
    ensures o != [] && Is(o, |o| - 1, h, key) ==> IsLast(Live(o), h, key)
  {
    if o != [] {
      LiveLast(o);
    }
  }

  lemma NothingCut<K(!new), V(!new)>(g: Geometry, m: seq<Slot>, o: seq<Entry<K, V>>, h: nat, key: K)
    requires o != [] ==> !Is(o, |o| - 1, h, key)
    ensures !CutsOff(g, m, o, h, key)
  {
  }

  /** An array without holes has none when its last entry goes. */
  lemma FullAfterCut<K, V>(o: seq<Entry<K, V>>)
    requires o != []
    ensures |Live(o)| == |o| ==> |Live(Trimmed(o[..|o| - 1]))| == |Trimmed(o[..|o| - 1])|
  {
    LiveSize(o);
    if |Live(o)| == |o| {
      LiveAll(o);
      AllLive(o[..|o| - 1]);
    }
  }

  lemma {:induction false} TrimKeepsTwins<K(!new), V(!new)>(o: seq<Entry<K, V>>)
    requires NoTwins(o)
    ensures NoTwins(Trimmed(o))
  {
    if o != [] && o[|o| - 1].hash == 0 {
      TrimKeepsTwins(o[..|o| - 1]);
    }
  }

  /** When no two entries share a hash, the search that finds one meets no collision. */
  lemma FoundAlone<K(!new), V(!new)>(g: Geometry, m: seq<Slot>, o: seq<Entry<K, V>>, h: nat, key: K, j: nat)
    requires |m| == Capa(g) && Back(m, o) && h != 0 && EndsAt(g, m, o, h, key, j)
    requires j <= Seek(g) && m[Spot(g, h, j)].at >= 0
    ensures NoTwins(o) ==> !Collides(g, m, h, j)
  {
    var k := m[Spot(g, h, j)].at;
    assert o[k].hash == h && o[k].key == key;
    forall i: nat | i < j && m[Spot(g, h, i)].hash == h ensures !NoTwins(o) {
      assert !Stops(m, o, Spot(g, h, i), h, key);
      var l := m[Spot(g, h, i)].at;
      assert l != k && o[l].hash == o[k].hash;
    }
  }

  lemma LastIsFound<K, V>(c: seq<Entry<K, V>>, h: nat, key: K)
    ensures Lookup(c, h, key) == None ==> !IsLast(c, h, key)
  {
  }

  lemma {:induction false} Pow2Exceeds(n: nat)
    ensures Pow2(n) > n
  {
    if n > 0 {
      Pow2Exceeds(n - 1);
    }
  }

  // ---------------------------------------------------------------------------------------------
  // Histories

  datatype Op<K, V> =
    | Insert(hash: nat, key: K, val: V, overwrite: bool) | Find(hash: nat, key: K) | Remove(hash: nat, key: K)
    | Compact | Rehash | CapaRequire(minCapa: nat)

  /** What a call does to the association list. */
  function Did<K(==), V>(c: seq<Entry<K, V>>, op: Op<K, V>): seq<Entry<K, V>> {
    match op
    case Insert(hash, key, val, overwrite) =>
      if Lookup(c, Norm(hash), key).Some? && !overwrite then c else Updated(c, Entry(Norm(hash), key, val))
    case Remove(hash, key) => Removed(c, Norm(hash), key)
    case _ => c
  }

  /** The value a call reports: the one the key has, or had. */
  function Answer<K(==), V>(c: seq<Entry<K, V>>, op: Op<K, V>): Option<V> {
    if op.Insert? || op.Find? || op.Remove? then Lookup(c, Norm(op.hash), op.key) else None
  }

  /** The call does not remove the entry that was inserted last. */
  predicate SparesLast<K(==), V>(c: seq<Entry<K, V>>, op: Op<K, V>) {
    op.Remove? ==> !IsLast(c, Norm(op.hash), op.key)
  }

  predicate AllSpareLast<K(==), V>(c: seq<Entry<K, V>>, ops: seq<Op<K, V>>)
    decreases |ops|
  {
    ops == [] || (SparesLast(c, ops[0]) && AllSpareLast(Did(c, ops[0]), ops[1..]))
  }

  function DidAll<K(==), V>(c: seq<Entry<K, V>>, ops: seq<Op<K, V>>): seq<Entry<K, V>>
    decreases |ops|
  {
    if ops == [] then c else DidAll(Did(c, ops[0]), ops[1..])
  }

  function Answers<K(==), V>(c: seq<Entry<K, V>>, ops: seq<Op<K, V>>): seq<Option<V>>
    decreases |ops|
  {
    if ops == [] then [] else [Answer(c, ops[0])] + Answers(Did(c, ops[0]), ops[1..])
  }

  /** The largest map there is memory for, which `g` describes, has room for the entries before and after the call. */
  predicate Affords<K(==), V>(g: Geometry, c: seq<Entry<K, V>>, op: Op<K, V>) {
    |c| <= Seek(g) + 1 && |Did(c, op)| <= Seek(g) + 1 && (op.CapaRequire? ==> op.minCapa <= Capa(g))
  }

  predicate AllAfford<K(==), V>(g: Geometry, c: seq<Entry<K, V>>, ops: seq<Op<K, V>>)
    decreases |ops|
  {
    ops == [] || (Affords(g, c, ops[0]) && AllAfford(g, Did(c, ops[0]), ops[1..]))
  }

  /** At no time has one hash so many entries. */
  ghost predicate NeverPacks<K(!new), V(!new)>(c: seq<Entry<K, V>>, ops: seq<Op<K, V>>)
    decreases |ops|
  {
    !Packs(c) && (ops != [] ==> NeverPacks(Did(c, ops[0]), ops[1..]))
  }

  // ---------------------------------------------------------------------------------------------
  // How far a search gets

  lemma {:induction false} OddDivides(b: nat, d: nat, q: int)
    requires STRIDE * d == Pow2(b) * q
    ensures exists r: int :: d == Pow2(b) * r
    decreases b
  {
    if b == 0 {
      assert d == Pow2(0) * d;
    } else {
      var p := Pow2(b - 1);
      TwoTimes(p, q);
      assert STRIDE * d == 2 * (p * q);
      var e := d / 2;
      assert d == 2 * e;
      OddDivides(b - 1, e, q);
      var r: int :| e == p * r;
      TwoTimes(p, r);
      assert d == Pow2(b) * r;
    }
  }

  lemma TwoTimes(p: int, q: int)
    ensures (2 * p) * q == 2 * (p * q)
  {
  }

  lemma NoMultiple(c: nat, r: int)
    ensures c * r <= 0 || c <= c * r
  {
    if r >= 1 { assert c * r >= c * 1; } else { assert c * r <= c * 0; }
  }

  /** Fewer probes than there are slots are at different slots, because the stride is odd. */
  lemma SpotsDiffer(g: Geometry, h: nat, i: nat, j: nat)
    requires i < j < Capa(g)
    ensures Spot(g, h, i) != Spot(g, h, j)
  {
    var c, x, y := Capa(g), g.alt(h, g.bits) + STRIDE * i, g.alt(h, g.bits) + STRIDE * j;
    if x % c == y % c {
      var q := y / c - x / c;
      SameRest(x, y, c);
      assert STRIDE * (j - i) == Pow2(g.bits) * q;
      OddDivides(g.bits, j - i, q);
      var r: int :| j - i == c * r;
      NoMultiple(c, r);
    }
  }

  lemma SameRest(x: int, y: int, c: int)
    requires c > 0 && x % c == y % c
    ensures y - x == c * (y / c - x / c)
  {
    assert x == c * (x / c) + x % c && y == c * (y / c) + y % c;
  }

  /** A probe meets an entry; of its own hash, or of any. */
  predicate Meets(m: seq<Slot>, p: nat, h: nat, own: bool)
    requires p < |m|
  {
    m[p].at >= 0 && (own ==> m[p].hash == h)
  }

  /** The entries that the first `j` probes meet. */
  ghost function Met(g: Geometry, m: seq<Slot>, h: nat, j: nat, own: bool): set<nat>
    requires |m| == Capa(g)
  {
    if j == 0 then {}
    else Met(g, m, h, j - 1, own) + if Meets(m, Spot(g, h, j - 1), h, own) then {m[Spot(g, h, j - 1)].at} else {}
  }

  lemma {:induction false} MetFrom(g: Geometry, m: seq<Slot>, h: nat, j: nat, own: bool, x: nat) returns (i: nat)
    requires |m| == Capa(g) && x in Met(g, m, h, j, own)
    ensures i < j && Meets(m, Spot(g, h, i), h, own) && m[Spot(g, h, i)].at == x
    decreases j
  {
    if x in Met(g, m, h, j - 1, own) {
      i := MetFrom(g, m, h, j - 1, own, x);
    } else {
      i := j - 1;
    }
  }

  lemma MetGrows<K(!new), V(!new)>(g: Geometry, m: seq<Slot>, o: seq<Entry<K, V>>, h: nat, j: nat, own: bool)
    requires |m| == Capa(g) && Back(m, o) && j < Capa(g)
    ensures |Met(g, m, h, j + 1, own)| == |Met(g, m, h, j, own)| + if Meets(m, Spot(g, h, j), h, own) then 1 else 0
  {
    var p := Spot(g, h, j);
    if Meets(m, p, h, own) && m[p].at in Met(g, m, h, j, own) {
      var i := MetFrom(g, m, h, j, own, m[p].at);
      SpotsDiffer(g, h, i, j);
    }
  }

  lemma {:induction false} MetAre<K(!new), V(!new)>(g: Geometry, m: seq<Slot>, o: seq<Entry<K, V>>, h: nat, j: nat, own: bool)
    requires |m| == Capa(g) && Back(m, o)
    ensures forall k | k in Met(g, m, h, j, own) :: k < |o| && (own ==> o[k].hash == h)
  {
    forall k | k in Met(g, m, h, j, own) ensures k < |o| && (own ==> o[k].hash == h) {
      var i := MetFrom(g, m, h, j, own, k);
    }
  }

  /** How many entries have the hash. */
  function Crowd<K, V>(o: seq<Entry<K, V>>, h: nat): nat {
    if o == [] then 0 else Crowd(o[..|o| - 1], h) + if o[|o| - 1].hash == h then 1 else 0
  }

  lemma {:induction false} CrowdAtLeast<K, V>(o: seq<Entry<K, V>>, h: nat, some: set<nat>)
    requires forall k | k in some :: k < |o| && o[k].hash == h
    ensures |some| <= Crowd(o, h)
    decreases |o|
  {
    if o == [] {
      assert some == {};
    } else {
      var n := |o| - 1;
      CrowdAtLeast(o[..n], h, some - {n});
    }
  }

  /** Removed entries do not count. */
  lemma {:induction false} CrowdLive<K, V>(o: seq<Entry<K, V>>, h: nat)
    requires h != 0
    ensures Crowd(Live(o), h) == Crowd(o, h) <= |Live(o)|
    decreases |o|
  {
    if o != [] {
      var n := |o| - 1;
      CrowdLive(o[..n], h);
      CrowdSnoc(Live(o[..n]), o[n], h);
      assert Live(o[..n]) + [] == Live(o[..n]);
    }
  }

  lemma CrowdSnoc<K, V>(c: seq<Entry<K, V>>, e: Entry<K, V>, h: nat)
    ensures Crowd(c + [e], h) == Crowd(c, h) + if e.hash == h then 1 else 0
  {
    assert (c + [e])[..|c|] == c;
  }

  lemma {:induction false} AtMost(some: set<nat>, n: nat)
    requires forall k | k in some :: k < n
    ensures |some| <= n
    decreases n
  {
    if n == 0 {
      assert some == {};
    } else {
      AtMost(some - {n - 1}, n - 1);
    }
  }

  lemma {:induction false} AllMet<K(!new), V(!new)>(g: Geometry, m: seq<Slot>, o: seq<Entry<K, V>>, h: nat, j: nat)
    requires |m| == Capa(g) && Back(m, o) && j <= Capa(g)
    requires forall i: nat | i < j :: Meets(m, Spot(g, h, i), h, false)
    ensures |Met(g, m, h, j, false)| == j
    decreases j
  {
    if j > 0 {
      AllMet(g, m, o, h, j - 1);
      MetGrows(g, m, o, h, j - 1, false);
    }
  }

  /** A search that no probe ends has met an entry at each: so there are as many entries. */
  lemma Crowded<K(!new), V(!new)>(g: Geometry, m: seq<Slot>, o: seq<Entry<K, V>>, h: nat, key: K, j: nat)
    requires |m| == Capa(g) && Back(m, o) && Clear(g, m, o, h, key, j) && j <= Capa(g)
    requires NoHoles(m)
    ensures j <= |o|
  {
    forall i: nat | i < j ensures Meets(m, Spot(g, h, i), h, false) {
      assert !Stops(m, o, Spot(g, h, i), h, key);
    }
    AllMet(g, m, o, h, j);
    MetAre(g, m, o, h, j, false);
    AtMost(Met(g, m, h, j, false), |o|);
  }

  /** Every slot that is not empty indexes an entry. */
  predicate NoHoles(m: seq<Slot>) {
    forall p | 0 <= p < |m| && m[p].hash != 0 :: m[p].at >= 0
  }

  lemma NothingMapped<K(!new), V(!new)>(g: Geometry, m: seq<Slot>, o: seq<Entry<K, V>>)
    requires |m| == Capa(g) && forall p :: 0 <= p < |m| ==> m[p] == EMPTY
    ensures Indexed(g, m, o[..0]) && NoTwins(o[..0]) && NoHoles(m)
  {
  }

  /** The next entry of the array gets the slot where its search ended. */
  lemma MapsNext<K(!new), V(!new)>(
    g: Geometry, m: seq<Slot>, o: seq<Entry<K, V>>, k: nat, p: nat, j: nat, met: bool, met': bool)
    requires k < |o| && Indexed(g, m, o[..k]) && (!met ==> NoTwins(o[..k])) && NoHoles(m)
    requires o[k].hash != 0 && Distinct(o) && Back(m, o) && EndsAt(g, m, o, o[k].hash, o[k].key, j)
    requires (met' <==> met || Collides(g, m, o[k].hash, j)) && j <= Seek(g) && p == Spot(g, o[k].hash, j)
    ensures var m' := m[p := Slot(o[k].hash, k)];
      Indexed(g, m', o[..k + 1]) && (!met' ==> NoTwins(o[..k + 1])) && NoHoles(m')
  {
    EndsShorter(g, m, o, k, o[k].hash, o[k].key, j);
    assert o[..k + 1] == o[..k] + [o[k]];
    StopsAtHole(g, m, o, k, j);
    NewHasNoTwin(g, m, o[..k], o[k], j, met');
    PlaceKeeps(g, m, o[..k], o[k], j);
    hide Indexed, NoTwins, Spot, EndsAt, Collides;
  }

  /** A collision during the mapping is between two entries. */
  lemma CollisionIsTwin<K(!new), V(!new)>(g: Geometry, m: seq<Slot>, o: seq<Entry<K, V>>, k: nat, j: nat)
    requires |m| == Capa(g) && k < |o| && Back(m, o[..k]) && o[k].hash != 0 && Collides(g, m, o[k].hash, j)
    requires NoHoles(m)
    ensures !NoTwins(o)
  {
    var i: nat :| i < j && m[Spot(g, o[k].hash, i)].hash == o[k].hash;
    assert o[m[Spot(g, o[k].hash, i)].at].hash == o[k].hash;
  }

  /** Where many entries share a hash, two do. */
  lemma {:induction false} CrowdHasTwins<K(!new), V(!new)>(o: seq<Entry<K, V>>, h: nat)
    requires h != 0 && Crowd(o, h) >= 1
    ensures exists k :: 0 <= k < |o| && o[k].hash == h
    ensures Crowd(o, h) >= 2 ==> !NoTwins(o)
    decreases |o|
  {
    var n := |o| - 1;
    if Crowd(o[..n], h) >= 1 {
      CrowdHasTwins(o[..n], h);
      var k :| 0 <= k < n && o[..n][k].hash == h;
      assert o[k].hash == h;
      if Crowd(o[..n], h) >= 2 {
        var a, b :| 0 <= a < b < n && o[..n][a].hash != 0 && o[..n][a].hash == o[..n][b].hash;
        assert o[a].hash == o[b].hash;
      } else if o[n].hash == h {
        assert o[k].hash == o[n].hash;
      }
    } else {
      assert o[n].hash == h;
    }
  }

  lemma PackedHasTwins<K(!new), V(!new)>(o: seq<Entry<K, V>>)
    requires Packs(Live(o))
    ensures !NoTwins(o)
  {
    var h: nat :| h != 0 && Crowd(Live(o), h) >= MAX_FULL_COLLISIONS;
    CrowdLive(o, h);
    CrowdHasTwins(o, h);
  }

  lemma NoSlot<K(!new), V(!new)>(alt: (nat, nat) -> nat, bits: nat, m: seq<Slot>, o: seq<Entry<K, V>>, h: nat, key: K, j: nat)
    requires var g := Geometry(alt, bits); |m| == Capa(g) && Back(m, o) && EndsAt(g, m, o, h, key, j) && j > Seek(g)
    requires NoHoles(m)
    ensures Room(alt, bits) <= |o|
  {
    Crowded(Geometry(alt, bits), m, o, h, key, Room(alt, bits));
  }

  /** Some hash is that of so many entries that a search takes them for an attack. */
  ghost predicate Packs<K(!new), V(!new)>(c: seq<Entry<K, V>>) {
    exists h: nat :: h != 0 && Crowd(c, h) >= MAX_FULL_COLLISIONS
  }

  lemma PacksLive<K(!new), V(!new)>(o: seq<Entry<K, V>>, h: nat)
    requires h != 0 && Crowd(o, h) >= MAX_FULL_COLLISIONS
    ensures Packs(Live(o))
  {
    CrowdLive(o, h);
  }

  /** A search for the hash has met that many entries of it. */
  lemma AttackPacks<K(!new), V(!new)>(g: Geometry, m: seq<Slot>, o: seq<Entry<K, V>>, h: nat, j: nat)
    requires |m| == Capa(g) && Back(m, o) && h != 0 && |Met(g, m, h, j, true)| >= MAX_FULL_COLLISIONS
    ensures Packs(Live(o))
  {
    MetAre(g, m, o, h, j, true);
    CrowdAtLeast(o, h, Met(g, m, h, j, true));
    PacksLive(o, h);
  }

  /** As many entries as a map of so many bits has a slot for, wherever their searches start. */
  function Room(alt: (nat, nat) -> nat, bits: nat): nat {
    Seek(Geometry(alt, bits)) + 1
  }

  lemma RoomGrows(alt: (nat, nat) -> nat, a: nat, b: nat)
    requires a <= b
    ensures Room(alt, a) <= Room(alt, b) <= MAX_SEEK + 1
    ensures a >= 16 ==> Room(alt, a) == MAX_SEEK + 1
  {
    Pow2Mono(a, b);
    if a >= 16 {
      Pow2Mono(9, a);
      assert Pow2(9) == 512 by {
        assert Pow2(3) == 8 && Pow2(5) == 4 * Pow2(3) && Pow2(7) == 4 * Pow2(5) && Pow2(9) == 4 * Pow2(7);
      }
    }
  }

  /** A full array of a map of `bits` bits, at most a third of it holes, has more entries than a map of at least two
      bits has certain room for. */
  lemma FullIsLarge(alt: (nat, nat) -> nat, bits: nat, maxBits: nat, pos: nat, count: nat)
    requires 2 <= maxBits <= bits && pos >= Pow2(bits) && pos - count <= count / 2
    ensures count > Room(alt, maxBits)
  {
    Pow2Mono(2, maxBits);
    Pow2Mono(maxBits, bits);
    assert Pow2(2) == 4;
  }

  // ---------------------------------------------------------------------------------------------
  // The steps of the calls

  /** An entry is added in the slot where its search ended. */
  ghost predicate Inserts<K(!new), V(!new)>(
    g: Geometry, m: seq<Slot>, o: seq<Entry<K, V>>, e: Entry<K, V>, m': seq<Slot>, o': seq<Entry<K, V>>)
  {
    && |m| == Capa(g) && Back(m, o)
    && exists j: nat :: j <= Seek(g) && InsertsAt(g, m, o, e, j) && m' == m[Spot(g, e.hash, j) := Slot(e.hash, |o|)] && o' == o + [e]
  }

  ghost predicate InsertsAt<K(!new), V(!new)>(g: Geometry, m: seq<Slot>, o: seq<Entry<K, V>>, e: Entry<K, V>, j: nat)
    requires |m| == Capa(g) && Back(m, o)
  {
    EndsAt(g, m, o, e.hash, e.key, j) && m[Spot(g, e.hash, j)].at < 0
  }

  /** The entry at `p` becomes a hole. */
  predicate Hollows<K(==), V(==)>(m: seq<Slot>, o: seq<Entry<K, V>>, p: nat, m': seq<Slot>, o': seq<Entry<K, V>>) {
    && p < |m| && 0 <= m[p].at < |o| - 1
    && m' == m[p := Slot(m[p].hash, -1)] && o' == o[m[p].at := o[m[p].at].(hash := 0)]
  }

  /** The last entry, at `p`, is cut off. */
  predicate Cuts<K(==), V(==)>(m: seq<Slot>, o: seq<Entry<K, V>>, p: nat, m': seq<Slot>, o': seq<Entry<K, V>>) {
    p < |m| && o != [] && m[p].at == |o| - 1 && m' == m[p := EMPTY] && o' == Trimmed(o[..|o| - 1])
  }

  // ---------------------------------------------------------------------------------------------
  // The set

  class Set<K(==, !new), V(!new)> {
    const alt: (nat, nat) -> nat  // the rotation of a hash by a number of bits
    const maxBits: nat            // an allocation for more bits than these fails
    var count: nat
    var capa: nat
    var pos: nat
    var ordered: seq<Entry<K, V>>
    var slots: seq<Slot>
    var hasCollisions: bool
    var usedBits: nat
    var underAttack: bool

    ghost function Geo(): Geometry
      reads `usedBits
    {
      Geometry(alt, usedBits)
    }

    ghost function Content(): seq<Entry<K, V>>
      reads `ordered
    {
      Live(ordered)
    }

    /** The ordered array and the counters. */
    ghost predicate Counted()
      reads `count, `pos, `ordered
    {
      pos == |ordered| && count == |Live(ordered)| && Distinct(ordered)
    }

    /** The map has a slot for every number of `usedBits` bits. */
    ghost predicate Sized()
      reads `capa, `slots, `usedBits
    {
      capa == |slots| == Capa(Geo())
    }

    /** The map indexes the entries, and without a collision no two entries share a hash. */
    ghost predicate Mapped()
      reads `ordered, `slots, `usedBits, `hasCollisions
    {
      Indexed(Geo(), slots, ordered) && (!hasCollisions ==> NoTwins(ordered))
    }

    /** The next search will rebuild the map. */
    predicate Stale()
      reads `hasCollisions, `pos, `count
    {
      hasCollisions && pos != count
    }

    ghost predicate Valid()
      reads this
    {
      && !underAttack && Counted() && pos <= capa && usedBits <= maxBits
      && (capa == 0 ==> slots == [] && usedBits == 0)
      && (capa > 0 ==> Sized() && (Stale() || Mapped()))
    }

    /** The process has ended: no memory for the map, or too many collisions in a large one. */
    ghost predicate GaveUp()
      reads `usedBits, `hasCollisions
    {
      usedBits > maxBits || (usedBits >= 16 && hasCollisions)
    }

    /** The largest map there is memory for has room for so many entries. */
    ghost predicate Small(n: nat) {
      maxBits >= 2 && n <= Room(alt, maxBits)
    }

    constructor (alt: (nat, nat) -> nat, maxBits: nat)
      ensures Valid() && Content() == []
    {
      this.alt, this.maxBits := alt, maxBits;
      count, capa, pos, usedBits := 0, 0, 0, 0;
      ordered, slots, hasCollisions, underAttack := [], [], false, false;
    }

    /** The slot ends the search for the key; `met` says that it holds another key of the same hash. */
    method Test(p: nat, h: nat, key: K) returns (stop: bool, met: bool)
      requires h != 0 && Back(slots, ordered) && p < |slots|
      ensures stop == Stops(slots, ordered, p, h, key) && (!stop ==> (met <==> slots[p].hash == h))
      ensures stop && slots[p].hash != 0 ==> slots[p].hash == h
      ensures met ==> slots[p].hash == h
      ensures !stop ==> (met <==> Meets(slots, p, h, true))
    {
      if slots[p].hash == 0 {
        return true, false;
      }
      if slots[p].hash == h {
        if slots[p].at < 0 || ordered[slots[p].at].key == key {
          return true, false;
        }
        return false, true;
      }
      return false, false;
    }

    /** The search of `_find_map_pos_`: the slot where it ends, or -1. */
    method Probe(h: nat, key: K) returns (p: int, ghost j: nat)
      requires h != 0 && Sized() && Back(slots, ordered) && !underAttack
      modifies `hasCollisions, `underAttack
      ensures -1 <= p < |slots| && (p >= 0 && slots[p].hash != 0 ==> slots[p].hash == h)
      ensures !underAttack ==>
        && EndsAt(Geo(), slots, ordered, h, key, j) && p == (if j <= Seek(Geo()) then Spot(Geo(), h, j) else -1)
        && (hasCollisions <==> old(hasCollisions) || Collides(Geo(), slots, h, j))
      ensures underAttack ==> Packs(Content())
    {
      var start := alt(h, usedBits);
      p, j := Masked(start, 0, capa), 0;
      var stop, met := Test(p, h, key);
      if stop {
        return;
      }
      MetGrows(Geo(), slots, ordered, h, 0, true);
      if met {
        hasCollisions := true;
      }
      Passed(Geo(), slots, ordered, h, key, 0);
      p, j := ProbeOn(h, key, start, if met then 1 else 0);
    }

    /** The further probes, after the first. */
    method ProbeOn(h: nat, key: K, start: nat, full0: nat) returns (p: int, ghost j: nat)
      requires h != 0 && Sized() && Back(slots, ordered) && !underAttack && start == alt(h, usedBits)
      requires Clear(Geo(), slots, ordered, h, key, 1) && (Collides(Geo(), slots, h, 1) ==> hasCollisions)
      requires full0 == |Met(Geo(), slots, h, 1, true)|
      modifies `hasCollisions, `underAttack
      ensures -1 <= p < |slots| && (p >= 0 && slots[p].hash != 0 ==> slots[p].hash == h)
      ensures !underAttack ==>
        && EndsAt(Geo(), slots, ordered, h, key, j) && p == (if j <= Seek(Geo()) then Spot(Geo(), h, j) else -1)
        && (hasCollisions <==> old(hasCollisions) || Collides(Geo(), slots, h, j))
      ensures underAttack ==> Packs(Content())
    {
      hide Met, Crowd, Packs, Live, Capa, Collides, Clear;
      var full, i := full0, 0;
      p, j := -1, 0;
      var limit := STRIDE * (if capa > 4 * MAX_SEEK then MAX_SEEK else capa / 4);
      while i < limit
        invariant i == STRIDE * j && j <= Seek(Geo()) && limit == STRIDE * Seek(Geo())
        invariant !underAttack && Clear(Geo(), slots, ordered, h, key, j + 1) && full == |Met(Geo(), slots, h, j + 1, true)|
        invariant hasCollisions <==> old(hasCollisions) || Collides(Geo(), slots, h, j + 1)
      {
        i, j := i + STRIDE, j + 1;
        p := Masked(start, i, capa);
        assert p == Spot(Geo(), h, j);
        var stop, met := Test(p, h, key);
        if stop {
          return;
        }
        MetGrows(Geo(), slots, ordered, h, j, true);
        if met {
          hasCollisions := true;
          full := full + 1;
          if full >= MAX_FULL_COLLISIONS {
            AttackPacks(Geo(), slots, ordered, h, j + 1);
            underAttack := true;
            return;
          }
        }
        Passed(Geo(), slots, ordered, h, key, j);
      }
      p, j := -1, j + 1;
    }

    /** `_compact_ordered_array_`: live entries move to the front. */
    method CompactOrdered()
      requires Counted()
      modifies `ordered, `pos, `count
      ensures Counted() && ordered == old(Content()) == Content() && pos == count <= old(pos)
    {
      hide Distinct, Live;
      LiveSize(ordered);
      if count == pos {
        return;
      }
      LiveTwice(ordered);
      LiveDistinct(ordered);
      ghost var was := ordered;
      NonePacked(was);
      var reader, writer := 0, 0;
      while reader < pos
        invariant 0 <= writer <= reader <= pos == |ordered| && Packed(was, ordered, reader, writer)
      {
        PackOne(was, ordered, reader, writer);
        if ordered[reader].hash != 0 {
          ordered := ordered[writer := ordered[reader]];
          writer := writer + 1;
        }
        reader := reader + 1;
      }
      AllPacked(was, ordered, writer);
      ordered := ordered[..writer];
      pos, count := writer, writer;
    }

    /** `_reallocate_set_mem_`: an empty map; false when there is no memory, which ends the process. */
    method Reallocate() returns (alive: bool)
      modifies `slots, `capa
      ensures alive ==> Sized() && forall p :: 0 <= p < |slots| ==> slots[p] == EMPTY
      ensures alive <==> usedBits <= maxBits
    {
      if usedBits > maxBits {
        return false;
      }
      capa := Pow2(usedBits);
      slots := seq(capa, _ => EMPTY);
      alive := true;
    }

    /** Finds a slot for every entry; false when one finds none. */
    method MapAll() returns (done: bool)
      requires Sized() && !underAttack && (forall p :: 0 <= p < |slots| ==> slots[p] == EMPTY)
      requires Distinct(ordered) && forall k :: 0 <= k < |ordered| ==> ordered[k].hash != 0
      modifies `slots, `hasCollisions, `underAttack
      ensures Sized() && (done && !underAttack ==> Mapped()) && (underAttack ==> done)
      ensures !done ==> |ordered| > Room(alt, usedBits)
      ensures hasCollisions ==> old(hasCollisions) || !NoTwins(ordered)
      ensures underAttack ==> Packs(Content())
    {
      hide Room, Packs, Live, Met, Collides, EndsAt, NoTwins, Placed, Clear, Spot;
      NothingMapped(Geo(), slots, ordered);
      var k := 0;
      while k < |ordered|
        invariant 0 <= k <= |ordered| && Sized() && !underAttack
        invariant Indexed(Geo(), slots, ordered[..k]) && (!hasCollisions ==> NoTwins(ordered[..k])) && NoHoles(slots)
        invariant hasCollisions ==> old(hasCollisions) || !NoTwins(ordered)
      {
        var e := ordered[k];
        BackLonger(slots, ordered, k);
        ghost var met := hasCollisions;
        var p, j := Probe(e.hash, e.key);
        if underAttack {
          PackedHasTwins(ordered);
          return true;
        }
        if Collides(Geo(), slots, e.hash, j) { CollisionIsTwin(Geo(), slots, ordered, k, j); }
        if p < 0 {
          EndsShorter(Geo(), slots, ordered, k, e.hash, e.key, j);
          NoSlot(alt, usedBits, slots, ordered[..k], e.hash, e.key, j);
          return false;
        }
        MapsNext(Geo(), slots, ordered, k, p, j, met, hasCollisions);
        slots := slots[p := Slot(e.hash, k)];
        k := k + 1;
      }
      assert ordered[..k] == ordered;
      done := true;
    }

    /** Maps every entry, with more bits as long as one finds no slot; false when the process ends, for want
        of memory or for too many collisions. */
    method Remap() returns (alive: bool)
      requires !underAttack && Distinct(ordered) && forall k :: 0 <= k < |ordered| ==> ordered[k].hash != 0
      modifies `hasCollisions, `slots, `capa, `usedBits, `underAttack
      ensures alive ==> Sized() && maxBits >= usedBits >= old(usedBits) && (!underAttack ==> Mapped())
      ensures !alive ==> GaveUp()
      ensures hasCollisions ==> old(hasCollisions) || !NoTwins(ordered)
      ensures old(usedBits) <= maxBits && |ordered| <= Room(alt, maxBits) ==> alive
      ensures underAttack ==> Packs(Content())
    {
      var attempts, done := 0, false;
      while !done
        invariant usedBits >= old(usedBits) && (!done ==> !underAttack) && (underAttack ==> Packs(Content()))
        invariant done ==> usedBits <= maxBits
        invariant usedBits > old(usedBits) ==> |ordered| > Room(alt, usedBits - 1)
        invariant hasCollisions ==> old(hasCollisions) || !NoTwins(ordered)
        invariant !done && attempts > 0 ==> usedBits > 16 && usedBits > old(usedBits)
        invariant done ==> Sized() && (!underAttack ==> Mapped())
        decreases !done, maxBits + 1 - usedBits
      {
        if usedBits >= 16 {
          attempts := attempts + 1;
          if attempts >= 3 && hasCollisions {
            RoomGrows(alt, 16, usedBits - 1);
            RoomGrows(alt, maxBits, maxBits);
            return false;
          }
        }
        alive := Reallocate();
        if !alive {
          if old(usedBits) <= maxBits {
            RoomGrows(alt, maxBits, usedBits - 1);
          }
          return;
        }
        done := MapAll();
        if !done {
          usedBits := usedBits + 1;
        }
      }
      alive := true;
    }

    /** `rehash`. */
    method Rehash() returns (alive: bool)
      requires Counted() && !underAttack
      modifies `ordered, `pos, `count, `hasCollisions, `slots, `capa, `usedBits, `underAttack
      ensures Counted() && ordered == old(Content()) == Content() && pos == count <= old(pos)
      ensures alive ==> Sized() && maxBits >= usedBits >= old(usedBits) && (!underAttack ==> Mapped())
      ensures !alive ==> GaveUp()
      ensures hasCollisions ==> !NoTwins(old(Content()))
      ensures old(usedBits) <= maxBits && |old(Content())| <= Room(alt, maxBits) ==> alive
      ensures underAttack ==> Packs(old(Content()))
    {
      hide NoTwins, Distinct, Live, Indexed;
      CompactOrdered();
      LiveAll(ordered);
      hasCollisions := false;
      alive := Remap();
    }

    /** Where a search ended says whether the key has an entry. */
    ghost predicate Found(h: nat, key: K, p: int)
      reads `ordered, `slots
    {
      && -1 <= p < |slots| && (p >= 0 ==> -1 <= slots[p].at < |ordered|)
      && if p >= 0 && slots[p].at >= 0 then Is(ordered, slots[p].at, h, key) && slots[p].hash == h
         else forall k: nat :: !Is(ordered, k, h, key)
    }

    /** The search ended at probe `j`, with what it has told about collisions. */
    ghost predicate Searched(h: nat, key: K, p: int, j: nat)
      reads `ordered, `slots, `usedBits, `hasCollisions, `capa
    {
      && Sized() && Indexed(Geo(), slots, ordered)
      && EndsAt(Geo(), slots, ordered, h, key, j) && p == (if j <= Seek(Geo()) then Spot(Geo(), h, j) else -1)
      && (!hasCollisions ==> NoTwins(ordered) && !Collides(Geo(), slots, h, j))
    }

    /** `_find_map_pos_`. A map that may hide entries is rebuilt first. */
    method FindPos(h: nat, key: K) returns (alive: bool, p: int, ghost j: nat)
      requires Valid() && h != 0
      modifies this
      ensures alive ==> Counted() && Content() == old(Content()) && pos <= capa && old(capa) <= capa && pos <= old(pos)
      ensures alive && !underAttack ==> Found(h, key, p) && (if capa == 0 then p == -1 && Valid() else Searched(h, key, p, j))
      ensures alive && old(capa) == 0 ==> capa == 0
      ensures (alive ==> usedBits <= maxBits) && (!alive ==> GaveUp()) && (Small(|old(Content())|) ==> alive)
      ensures underAttack ==> Packs(old(Content()))
      ensures alive && !underAttack && capa > 0 && pos != count ==>
        NoTwins(ordered) && (hasCollisions ==> Collides(Geo(), slots, h, j))
      ensures alive && !old(Stale()) ==> usedBits == old(usedBits) && slots == old(slots) && ordered == old(ordered)
    {
      hide Distinct, NoTwins, Live, Placed, Clear, Pow2;
      alive, p, j := true, -1, 0;
      if capa == 0 {
        return;
      }
      if Stale() {
        ghost var bits := usedBits;
        alive := Rehash();
        if !alive || underAttack {
          if alive { Pow2Mono(bits, usedBits); }
          return;
        }
        Pow2Mono(bits, usedBits);
      }
      p, j := Probe(h, key);
      if !underAttack {
        EndMeans(Geo(), slots, ordered, h, key, j);
      }
    }

    /** `find`. */
    method Find(hash: nat, key: K) returns (alive: bool, r: Option<V>)
      requires Valid()
      modifies this
      ensures alive && !underAttack ==> Valid() && Content() == old(Content()) && r == Lookup(Content(), Norm(hash), key)
      ensures (!alive ==> GaveUp()) && (Small(|old(Content())|) ==> alive) && (underAttack ==> Packs(old(Content())))
    {
      var h := Norm(hash);
      r := None;
      var p: int;
      ghost var j;
      alive, p, j := FindPos(h, key);
      if !alive || underAttack {
        return;
      }
      if p < 0 || slots[p].at < 0 {
        LookupAbsent(ordered, h, key);
        return;
      }
      LookupLive(ordered, h, key, slots[p].at);
      r := Some(ordered[slots[p].at].val);
    }

    /** Rehashing clears the holes. */
    method ClearHoles() returns (alive: bool)
      requires Valid() && pos > count
      modifies this
      ensures alive ==> Counted() && Content() == old(Content()) && pos < capa && (!underAttack ==> Valid())
      ensures (!alive ==> GaveUp()) && (Small(|old(Content())|) ==> alive) && (underAttack ==> Packs(old(Content())))
    {
      ghost var bits := usedBits;
      alive := Rehash();
      if alive { Pow2Mono(bits, usedBits); }
    }

    /** Rehashing with one more bit doubles the arrays. */
    method Grow() returns (alive: bool)
      requires Valid() && pos >= capa && pos - count <= count / 2
      modifies this
      ensures alive ==> Counted() && Content() == old(Content()) && pos < capa && (!underAttack ==> Valid())
      ensures (!alive ==> GaveUp()) && (Small(|old(Content())|) ==> alive) && (underAttack ==> Packs(old(Content())))
    {
      ghost var bits, was := usedBits + 1, capa;
      if Small(count) && usedBits >= maxBits {
        FullIsLarge(alt, usedBits, maxBits, pos, count);
      }
      usedBits := usedBits + 1;
      assert Pow2(bits) == 2 * Pow2(bits - 1);
      alive := Rehash();
      if alive { Pow2Mono(bits, usedBits); }
    }

    /** The start of an insertion: too many holes are cleared, a full array grows. */
    method MakeRoom() returns (alive: bool)
      requires Valid()
      modifies this
      ensures alive ==> Counted() && Content() == old(Content()) && pos < capa && (!underAttack ==> Valid())
      ensures (!alive ==> GaveUp()) && (Small(|old(Content())|) ==> alive) && (underAttack ==> Packs(old(Content())))
    {
      LiveSize(ordered);
      alive := true;
      if pos - count > count / 2 {
        alive := ClearHoles();
      } else if pos >= capa {
        alive := Grow();
      }
    }

    /** A new entry for which the search found no slot: the map is rebuilt around it. */
    method Append(e: Entry<K, V>) returns (alive: bool)
      requires Counted() && !underAttack && pos < capa && Sized() && e.hash != 0 && usedBits <= maxBits
      requires forall k: nat :: !Is(ordered, k, e.hash, e.key)
      modifies this
      ensures alive ==> Counted() && Content() == old(Content()) + [e]
      ensures alive && !underAttack ==> Valid()
      ensures (!alive ==> GaveUp()) && (Small(|old(Content())| + 1) ==> alive) && (underAttack ==> Packs(old(Content()) + [e]))
    {
      ghost var bits, size := usedBits, capa;
      AppendDistinct(ordered, e);
      LiveAppend(ordered, e);
      ordered := ordered + [e];
      pos, count := pos + 1, count + 1;
      alive := Rehash();
      if alive { Pow2Mono(bits, usedBits); }
    }

    /** A new entry in a slot that the search found. */
    method PutInSlot(e: Entry<K, V>, p: int, ghost j: nat)
      requires Counted() && !underAttack && pos < capa && e.hash != 0 && Searched(e.hash, e.key, p, j) && p >= 0 && slots[p].at < 0
      requires usedBits <= maxBits
      requires forall k: nat :: !Is(ordered, k, e.hash, e.key)
      modifies `ordered, `slots, `pos, `count
      ensures Valid() && Content() == old(Content()) + [e]
      ensures Inserts(Geo(), old(slots), old(ordered), e, slots, ordered)
    {
      hide Distinct, NoTwins, Live, Collides, Clear, Placed;
      assert InsertsAt(Geo(), slots, ordered, e, j);
      AppendDistinct(ordered, e);
      LiveAppend(ordered, e);
      NewHasNoTwin(Geo(), slots, ordered, e, j, hasCollisions);
      PlaceKeeps(Geo(), slots, ordered, e, j);
      slots := slots[p := Slot(e.hash, pos)];
      ordered := ordered + [e];
      pos, count := pos + 1, count + 1;
    }

    /** The value of an entry is replaced. */
    method Replace(e: Entry<K, V>, k: nat)
      requires Counted() && !underAttack && pos <= capa && capa > 0 && Sized() && Indexed(Geo(), slots, ordered) && usedBits <= maxBits
      requires !hasCollisions ==> NoTwins(ordered)
      requires e.hash != 0 && Is(ordered, k, e.hash, e.key)
      modifies `ordered
      ensures Valid() && Content() == Updated(old(Content()), e)
    {
      hide Distinct, NoTwins, Live, Updated, Placed, Back, Lookup;
      LiveUpdate(ordered, k, e);
      UpdatedSize(Live(ordered), e);
      LookupLive(ordered, e.hash, e.key, k);
      ReplaceKeeps(Geo(), slots, ordered, k, e);
      ordered := ordered[k := e];
    }

    /** `_insert_or_overwrite_`; `prev` is the value the key had. */
    method InsertOrOverwrite(hash: nat, key: K, val: V, overwrite: bool) returns (alive: bool, prev: Option<V>)
      requires Valid()
      modifies this
      ensures alive && !underAttack ==> Valid() && prev == Lookup(old(Content()), Norm(hash), key)
      ensures alive && !underAttack ==>
        Content() == if prev.Some? && !overwrite then old(Content()) else Updated(old(Content()), Entry(Norm(hash), key, val))
      ensures !alive ==> GaveUp()
      ensures Small(|Updated(old(Content()), Entry(Norm(hash), key, val))|) ==> alive
      ensures underAttack && !Packs(old(Content())) ==>
        Lookup(old(Content()), Norm(hash), key) == None && Packs(Updated(old(Content()), Entry(Norm(hash), key, val)))
    {
      UpdatedSize(Content(), Entry(Norm(hash), key, val));
      var e := Entry(Norm(hash), key, val);
      prev := None;
      alive := MakeRoom();
      if !alive || underAttack {
        return;
      }
      var p: int;
      ghost var j;
      alive, p, j := FindPos(e.hash, key);
      if !alive || underAttack {
        return;
      }
      if p >= 0 && slots[p].at >= 0 {
        var k := slots[p].at;
        LookupLive(ordered, e.hash, key, k);
        prev := Some(ordered[k].val);
        if overwrite {
          Replace(e, k);
        }
        return;
      }
      LookupAbsent(ordered, e.hash, key);
      UpdatedAbsent(Content(), e);
      if p < 0 {
        alive := Append(e);
      } else {
        PutInSlot(e, p, j);
      }
    }

    /** An entry that is not the last of the array becomes a hole; its slot keeps the hash. */
    method Hollow(p: int, ghost h: nat, ghost key: K, ghost j: nat)
      requires Counted() && !underAttack && 0 < pos <= capa && h != 0 && Searched(h, key, p, j) && Found(h, key, p)
      requires usedBits <= maxBits
      requires p >= 0 && 0 <= slots[p].at < pos - 1
      modifies `ordered, `slots, `count
      ensures Valid() && Content() == Removed(old(Content()), h, key)
      ensures Hollows(old(slots), old(ordered), p, slots, ordered)
    {
      hide Distinct, NoTwins, Live, Placed, Removed;
      var k := slots[p].at;
      KillCounts(ordered, k);
      KillKeepsDistinct(ordered, k);
      if !hasCollisions {
        HoleKeeps(Geo(), slots, ordered, p);
      }
      count := count - 1;
      ordered := ordered[k := ordered[k].(hash := 0)];
      slots := slots[p := Slot(slots[p].hash, -1)];
    }

    /** The last entry of the array goes, and the holes before it. */
    method CutLast(p: int)
      requires Counted() && 0 < pos <= capa && 0 <= p < |slots| && slots[p].at == pos - 1 && ordered[pos - 1].hash != 0
      modifies `ordered, `slots, `count, `pos
      ensures Counted() && pos <= capa && Content() == Removed(old(Content()), old(ordered[pos - 1].hash), old(ordered[pos - 1].key))
      ensures Cuts(old(slots), old(ordered), p, slots, ordered)
    {
      LiveLast(ordered);
      ghost var left, rest := Live(ordered[..pos - 1]), ordered[..pos - 1];
      slots := slots[p := EMPTY];
      count := count - 1;
      pos := pos - 1;
      while pos > 0 && ordered[pos - 1].hash == 0
        invariant 0 <= pos < |ordered| && pos <= capa && Live(ordered[..pos]) == left && Trimmed(ordered[..pos]) == Trimmed(rest)
        modifies `pos
      {
        LiveTrim(ordered, pos);
        assert ordered[..pos][..pos - 1] == ordered[..pos - 1];
        pos := pos - 1;
      }
      ordered := ordered[..pos];
    }

    /** The state after a search that found the last entry, with that entry cut off: it is in order if and only
        if no other search passes the slot. */
    lemma CutValidIff(bits: nat, m: seq<Slot>, o: seq<Entry<K, V>>, p: nat)
      requires Indexed(Geometry(alt, bits), m, o) && p < |m| && o != [] && m[p].at == |o| - 1 && o[|o| - 1].hash != 0
      requires slots == m[p := EMPTY] && ordered == Trimmed(o[..|o| - 1]) && usedBits == bits && !underAttack
      requires Counted() && pos <= capa == |slots| && capa > 0 && !Stale() && (!hasCollisions ==> NoTwins(o)) && bits <= maxBits
      ensures Valid() <==> !CutsOff(Geometry(alt, bits), m, o, o[|o| - 1].hash, o[|o| - 1].key)
    {
      var g := Geo();
      CutKeepsIff(g, m, o, p);
      TrimKeepsIff(g, slots, o[..|o| - 1]);
      if !hasCollisions {
        TrimKeepsTwins(o[..|o| - 1]);
      }
    }

    /** `remove` of a hash map: 0, or -1 when the key has no entry. `m` and `o` are the map and the array the
        search was made in: the ones before the call, unless they had to be rebuilt first. The map is in order
        afterwards if and only if the entry was not the last one or no other entry's search passes its slot. */
    method Remove(hash: nat, key: K)
      returns (alive: bool, r: int, prev: Option<V>, ghost g: Geometry, ghost m: seq<Slot>, ghost o: seq<Entry<K, V>>)
      requires Valid()
      modifies this
      ensures alive && !underAttack ==>
        && prev == Lookup(old(Content()), Norm(hash), key) && r == (if prev.Some? then 0 else -1)
        && Content() == Removed(old(Content()), Norm(hash), key)
      ensures alive && !underAttack ==> (Valid() <==> !CutsOff(g, m, o, Norm(hash), key)) && Live(o) == old(Content())
      ensures alive && !underAttack && old(capa) > 0 ==> Indexed(g, m, o)
      ensures alive && !old(Stale()) ==> g == old(Geo()) && m == old(slots) && o == old(ordered)
      ensures alive && !underAttack && !IsLast(old(Content()), Norm(hash), key) ==> Valid()
      ensures (!alive ==> GaveUp()) && (Small(|old(Content())|) ==> alive) && (underAttack ==> Packs(old(Content())))
    {
      hide Live, Lookup, Removed, CutsOff, Trimmed, NoTwins, Collides;
      var h := Norm(hash);
      r, prev := -1, None;
      var p: int;
      ghost var j;
      alive, p, j := FindPos(h, key);
      g, m, o := Geo(), slots, ordered;
      if !alive || underAttack {
        return;
      }
      LastLives(o, h, key);
      if p < 0 || slots[p].at < 0 {
        LookupAbsent(ordered, h, key);
        RemovedAbsent(Content(), h, key);
        LastIsFound(Content(), h, key);
        NothingCut(g, m, o, h, key);
        return;
      }
      var k := slots[p].at;
      LookupLive(ordered, h, key, k);
      r, prev := 0, Some(ordered[k].val);
      if k == pos - 1 {
        FoundAlone(g, m, o, h, key, j);
        FullAfterCut(o);
        CutLast(p);
        CutValidIff(usedBits, m, o, p);
      } else {
        Hollow(p, h, key, j);
        NothingCut(g, m, o, h, key);
      }
    }

    /** `remove` of a set without keys: the hash 0 is never found, though `insert` stores it as another. */
    method RemoveFromSet(hash: nat, key: K)
      returns (alive: bool, r: int, prev: Option<V>, ghost g: Geometry, ghost m: seq<Slot>, ghost o: seq<Entry<K, V>>)
      requires Valid()
      modifies this
      ensures hash == 0 ==> alive && r == -1 && !underAttack && Valid() && Content() == old(Content())
      ensures hash != 0 && alive && !underAttack ==>
        && prev == Lookup(old(Content()), hash, key) && r == (if prev.Some? then 0 else -1)
        && Content() == Removed(old(Content()), hash, key)
      ensures hash != 0 && alive && !underAttack ==> (Valid() <==> !CutsOff(g, m, o, hash, key)) && Live(o) == old(Content())
      ensures hash != 0 && alive && !underAttack && old(capa) > 0 ==> Indexed(g, m, o)
      ensures alive && !old(Stale()) ==> g == old(Geo()) && m == old(slots) && o == old(ordered)
      ensures hash != 0 && alive && !underAttack && !IsLast(old(Content()), hash, key) ==> Valid()
      ensures (!alive ==> GaveUp()) && (Small(|old(Content())|) ==> alive) && (underAttack ==> Packs(old(Content())))
    {
      if hash == 0 {
        return true, -1, None, Geo(), slots, ordered;
      }
      alive, r, prev, g, m, o := Remove(hash, key);
    }

    /** `compact`. */
    method Compact() returns (alive: bool)
      requires Valid()
      modifies this
      ensures alive ==> Content() == old(Content()) && pos == count && (!underAttack ==> Valid())
      ensures (!alive ==> GaveUp()) && (Small(|old(Content())|) ==> alive) && (underAttack ==> Packs(old(Content())))
    {
      CompactOrdered();
      usedBits := 2;
      while count >= Pow2(usedBits)
        invariant usedBits >= 2 && (usedBits > 2 ==> count >= Pow2(usedBits - 1))
        modifies `usedBits
        decreases count - usedBits
      {
        Pow2Exceeds(usedBits);
        usedBits := usedBits + 1;
      }
      ghost var bits := usedBits;
      if Small(count) && bits > maxBits {
        FullIsLarge(alt, bits - 1, maxBits, count, count);
      }
      alive := Rehash();
      if alive { Pow2Mono(bits, usedBits); }
    }

    /** `capa_require`. */
    method CapaRequire(minCapa: nat) returns (alive: bool)
      requires Valid()
      modifies this
      ensures alive ==> Content() == old(Content()) && capa >= minCapa && (!underAttack ==> Valid())
      ensures (!alive ==> GaveUp()) && (Small(|old(Content())|) && minCapa <= Pow2(maxBits) ==> alive)
      ensures underAttack ==> Packs(old(Content()))
    {
      if minCapa <= capa {
        return true;
      }
      usedBits := 2;
      while minCapa > Pow2(usedBits)
        invariant usedBits >= 2 && (usedBits > 2 ==> minCapa > Pow2(usedBits - 1))
        modifies `usedBits
        decreases minCapa - usedBits
      {
        Pow2Exceeds(usedBits);
        usedBits := usedBits + 1;
      }
      ghost var bits := usedBits;
      if bits > maxBits >= 2 {
        Pow2Mono(maxBits, bits - 1);
      }
      alive := Rehash();
      if alive { Pow2Mono(bits, usedBits); }
    }

    /** One call of a history. */
    method Perform(op: Op<K, V>) returns (alive: bool, answer: Option<V>)
      requires Valid() && SparesLast(Content(), op)
      modifies this
      ensures alive && !underAttack ==> Valid() && Content() == Did(old(Content()), op) && answer == Answer(old(Content()), op)
      ensures !alive ==> GaveUp()
      ensures maxBits >= 2 && Affords(Geometry(alt, maxBits), old(Content()), op) ==> alive
      ensures underAttack ==> Packs(old(Content())) || Packs(Did(old(Content()), op))
    {
      hide Packs, Lookup, Updated, Removed, Live, Clear, Distinct, NoTwins, Placed;
      answer := None;
      match op
      case Insert(hash, key, val, overwrite) =>
        UpdatedSize(Content(), Entry(Norm(hash), key, val));
        alive, answer := InsertOrOverwrite(hash, key, val, overwrite);
      case Find(hash, key) => alive, answer := Find(hash, key);
      case Remove(hash, key) =>
        var r;
        ghost var g, m, o;
        alive, r, answer, g, m, o := Remove(hash, key);
      case Compact => alive := Compact();
      case Rehash =>
        ghost var bits, was := usedBits, capa;
        alive := Rehash();
        if alive { Pow2Mono(bits, usedBits); }
      case CapaRequire(minCapa) => alive := CapaRequire(minCapa);
    }
  }

  /** In every history that removes no entry right after it was inserted last, every call reports what the
      association list has, and the live entries are those of the list, in its order. */
  method RunHistory<K(==, !new), V(!new)>(set': Set<K, V>, ops: seq<Op<K, V>>) returns (alive: bool, answers: seq<Option<V>>)
    requires set'.Valid() && AllSpareLast(set'.Content(), ops)
    modifies set'
    ensures alive && !set'.underAttack ==>
      && set'.Valid() && set'.Content() == DidAll(old(set'.Content()), ops)
      && answers == Answers(old(set'.Content()), ops)
    ensures !alive ==> set'.GaveUp()
    ensures NeverPacks(old(set'.Content()), ops) ==> !set'.underAttack
    ensures set'.maxBits >= 2 && AllAfford(Geometry(set'.alt, set'.maxBits), old(set'.Content()), ops) ==> alive
  {
    alive, answers := true, [];
    ghost var start := set'.Content();
    for i := 0 to |ops|
      invariant alive && set'.Valid() && AllSpareLast(set'.Content(), ops[i..])
      invariant NeverPacks(start, ops) ==> NeverPacks(set'.Content(), ops[i..])
      invariant AllAfford(Geometry(set'.alt, set'.maxBits), start, ops) ==> AllAfford(Geometry(set'.alt, set'.maxBits), set'.Content(), ops[i..])
      invariant DidAll(set'.Content(), ops[i..]) == DidAll(start, ops)
      invariant answers + Answers(set'.Content(), ops[i..]) == Answers(start, ops)
    {
      assert ops[i..][0] == ops[i] && ops[i..][1..] == ops[i + 1..];
      var answer;
      alive, answer := set'.Perform(ops[i]);
      if !alive || set'.underAttack {
        return;
      }
      answers := answers + [answer];
    }
  }
}
