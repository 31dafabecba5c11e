/** A run of the ordered set in which an entry is lost: it is in the array, and its search stops at a slot
    that was blanked. */
module LostEntry {
  import opened OrderedSet

  /** No rebuild is due before an insertion: few holes, and room in the array. */
  predicate Roomy<K, V>(m: seq<Slot>, o: seq<Entry<K, V>>) {
    |Live(o)| <= |o| < |m| && |o| - |Live(o)| <= |Live(o)| / 2
  }

  /** Rotation of 64 bits to the right. */
  function Rotated(h: nat, bits: nat): nat {
    var b := bits % 64;
    h / Pow2(b) + h % Pow2(b) * Pow2(64 - b)
  }

  function Bit(a: nat, b: nat): nat {
    if a == b then 0 else 1
  }

  function Xor(a: nat, b: nat): nat {
    if a == 0 && b == 0 then 0 else Bit(a % 2, b % 2) + 2 * Xor(a / 2, b / 2)
  }

  /** How hashes are rotated unless the program that uses the set says otherwise. */
  function DefaultAlt(h: nat, bits: nat): nat {
    Xor(Rotated(h, bits), if bits == 0 then 0 else h)
  }

  // Four slots, as `capa_require` makes them for a new set. The hashes 5 and 10 start at slot 0, and the hash
  // 1 at slot 1; the second probe for 10 is at slot 3.
  const FOUR := Geometry(DefaultAlt, 2)
  const KEY1: Entry<nat, nat> := Entry(5, 1, 0)
  const KEY2: Entry<nat, nat> := Entry(10, 2, 0)
  const KEY3: Entry<nat, nat> := Entry(1, 3, 0)
  const GONE: Entry<nat, nat> := Entry(0, 1, 0)  // the removed entry of key 1

  lemma {:induction false} XorStep(a0: nat, a: nat, b0: nat, b: nat)
    requires a0 < 2 && b0 < 2
    ensures Xor(a0 + 2 * a, b0 + 2 * b) == Bit(a0, b0) + 2 * Xor(a, b)
  {
    assert (a0 + 2 * a) % 2 == a0 && (a0 + 2 * a) / 2 == a;
    assert (b0 + 2 * b) % 2 == b0 && (b0 + 2 * b) / 2 == b;
  }

  lemma FourTimes(a: nat, p: nat)
    ensures a * (4 * p) == 4 * (a * p)
  {
  }

  lemma {:induction false} PowFour(n: nat)
    ensures Pow2(n + 2) == 4 * Pow2(n)
  {
  }

  lemma {:induction false} RotatedBy2(high: nat, low: nat)
    requires low < 4
    ensures Rotated(4 * high + low, 2) == high + 4 * (low * Pow2(60))
  {
    hide Pow2;
    assert (4 * high + low) / 4 == high && (4 * high + low) % 4 == low;
    CapaOfFour();
    PowFour(60);
    FourTimes(low, Pow2(60));
  }

  /** The first slot, of four, for the hash with the bits `a1`, `a0`, `b1` and `b0`. */
  lemma {:induction false} FirstOfFour(a1: nat, a0: nat, b1: nat, b0: nat, h: nat) returns (rest: nat)
    requires a1 < 2 && a0 < 2 && b1 < 2 && b0 < 2 && h == 4 * (2 * a1 + a0) + (2 * b1 + b0)
    ensures DefaultAlt(h, 2) == Bit(a0, b0) + 2 * Bit(a1, b1) + 4 * rest
  {
    hide Pow2, Rotated, Xor, Bit;
    RotatedBy2(2 * a1 + a0, 2 * b1 + b0);
    var r := (2 * b1 + b0) * Pow2(60);
    assert Rotated(h, 2) == a0 + 2 * (a1 + 2 * r) && h == b0 + 2 * (b1 + 2 * (2 * a1 + a0));
    XorStep(a0, a1 + 2 * r, b0, b1 + 2 * (2 * a1 + a0));
    XorStep(a1, r, b1, 2 * a1 + a0);
    rest := Xor(r, 2 * a1 + a0);
  }

  lemma {:induction false} SpotOfFour(h: nat, j: nat, start: nat, rest: nat, p: nat)
    requires DefaultAlt(h, 2) == start + 4 * rest && p == (start + STRIDE * j) % 4
    ensures Spot(FOUR, h, j) == p
  {
    hide DefaultAlt, Pow2;
    CapaOfFour();
    assert start + 4 * rest + STRIDE * j == (start + STRIDE * j) + 4 * rest;
  }

  lemma CapaOfFour()
    ensures Pow2(2) == 4
  {
  }

  lemma {:induction false} FourSpots()
    ensures Capa(FOUR) == 4 && Seek(FOUR) == 1
    ensures Spot(FOUR, 5, 0) == 0 && Spot(FOUR, 10, 0) == 0 && Spot(FOUR, 10, 1) == 3 && Spot(FOUR, 1, 0) == 1
  {
    hide DefaultAlt, Spot, Pow2, Xor, Rotated;
    CapaOfFour();
    var r5 := FirstOfFour(0, 1, 0, 1, 5);
    var r10 := FirstOfFour(1, 0, 1, 0, 10);
    var r1 := FirstOfFour(0, 0, 0, 1, 1);
    SpotOfFour(5, 0, 0, r5, 0);
    SpotOfFour(10, 0, 0, r10, 0);
    SpotOfFour(10, 1, 0, r10, 3);
    SpotOfFour(1, 0, 1, r1, 1);
  }

  lemma FirstInserted()
    ensures Inserts(FOUR, [EMPTY, EMPTY, EMPTY, EMPTY], [], KEY1, [Slot(5, 0), EMPTY, EMPTY, EMPTY], [KEY1])
  {
    hide Spot, Seek, Capa;
    FourSpots();
    var m: seq<Slot>, o: seq<Entry<nat, nat>> := [EMPTY, EMPTY, EMPTY, EMPTY], [];
    assert InsertsAt(FOUR, m, o, KEY1, 0) && [Slot(5, 0), EMPTY, EMPTY, EMPTY] == m[0 := Slot(5, 0)];
  }

  lemma SecondInserted()
    ensures Inserts(FOUR, [Slot(5, 0), EMPTY, EMPTY, EMPTY], [KEY1], KEY2, [Slot(5, 0), EMPTY, EMPTY, Slot(10, 1)], [KEY1, KEY2])
  {
    hide Spot, Seek, Capa;
    FourSpots();
    var m, o := [Slot(5, 0), EMPTY, EMPTY, EMPTY], [KEY1];
    assert InsertsAt(FOUR, m, o, KEY2, 1) && [Slot(5, 0), EMPTY, EMPTY, Slot(10, 1)] == m[3 := Slot(10, 1)];
  }

  lemma ThirdInserted()
    ensures Inserts(FOUR, [Slot(5, 0), EMPTY, EMPTY, Slot(10, 1)], [KEY1, KEY2], KEY3,
                    [Slot(5, 0), Slot(1, 2), EMPTY, Slot(10, 1)], [KEY1, KEY2, KEY3])
  {
    hide Spot, Seek, Capa;
    FourSpots();
    var m, o := [Slot(5, 0), EMPTY, EMPTY, Slot(10, 1)], [KEY1, KEY2];
    assert InsertsAt(FOUR, m, o, KEY3, 0) && [Slot(5, 0), Slot(1, 2), EMPTY, Slot(10, 1)] == m[1 := Slot(1, 2)];
  }

  lemma FirstReinserted()
    ensures Inserts(FOUR, [Slot(5, -1), Slot(1, 2), EMPTY, Slot(10, 1)], [GONE, KEY2, KEY3], KEY1,
                    [Slot(5, 3), Slot(1, 2), EMPTY, Slot(10, 1)], [GONE, KEY2, KEY3, KEY1])
  {
    hide Spot, Seek, Capa;
    FourSpots();
    var m, o := [Slot(5, -1), Slot(1, 2), EMPTY, Slot(10, 1)], [GONE, KEY2, KEY3];
    assert InsertsAt(FOUR, m, o, KEY1, 0) && [Slot(5, 3), Slot(1, 2), EMPTY, Slot(10, 1)] == m[0 := Slot(5, 3)];
  }

  lemma TwoLive()
    ensures Live([GONE, KEY2, KEY3]) == [KEY2, KEY3]
  {
    LiveAppend([], GONE);
    LiveAppend([GONE], KEY2);
    LiveAppend([GONE, KEY2], KEY3);
    assert [] + [GONE] == [GONE] && [GONE] + [KEY2] == [GONE, KEY2] && [GONE, KEY2] + [KEY3] == [GONE, KEY2, KEY3];
  }

  /** Keys 1, 2 and 3 are inserted, key 1 is removed, inserted again and removed again. No step is due for a
      rebuild, and in the end the search for key 2 stops at the slot that was blanked, although key 2 still
      has its entry. */
  lemma CutOffWitness()
    ensures var holed, full := [Slot(5, -1), Slot(1, 2), EMPTY, Slot(10, 1)], [Slot(5, 3), Slot(1, 2), EMPTY, Slot(10, 1)];
      var cut, left := [EMPTY, Slot(1, 2), EMPTY, Slot(10, 1)], [GONE, KEY2, KEY3];
      && Inserts(FOUR, [EMPTY, EMPTY, EMPTY, EMPTY], [], KEY1, [Slot(5, 0), EMPTY, EMPTY, EMPTY], [KEY1])
      && Inserts(FOUR, [Slot(5, 0), EMPTY, EMPTY, EMPTY], [KEY1], KEY2, [Slot(5, 0), EMPTY, EMPTY, Slot(10, 1)], [KEY1, KEY2])
      && Inserts(FOUR, [Slot(5, 0), EMPTY, EMPTY, Slot(10, 1)], [KEY1, KEY2], KEY3,
                 [Slot(5, 0), Slot(1, 2), EMPTY, Slot(10, 1)], [KEY1, KEY2, KEY3])
      && Hollows([Slot(5, 0), Slot(1, 2), EMPTY, Slot(10, 1)], [KEY1, KEY2, KEY3], 0, holed, [GONE, KEY2, KEY3])
      && Roomy(holed, [GONE, KEY2, KEY3])
      && Inserts(FOUR, holed, [GONE, KEY2, KEY3], KEY1, full, [GONE, KEY2, KEY3, KEY1])
      && Cuts(full, [GONE, KEY2, KEY3, KEY1], 0, cut, left)
      && Is(left, 1, 10, 2) && |cut| == Capa(FOUR) && Back(cut, left) && EndsAt(FOUR, cut, left, 10, 2, 0) && cut[Spot(FOUR, 10, 0)].at < 0
  {
    hide Inserts, Spot, Seek, Capa;
    FirstInserted();
    SecondInserted();
    ThirdInserted();
    FirstReinserted();
    TwoLive();
    FourSpots();
    assert [GONE, KEY2, KEY3, KEY1][..3] == [GONE, KEY2, KEY3];
  }
}
