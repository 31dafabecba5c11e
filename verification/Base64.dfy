/** The Base64 encoder, which walks backwards so that the target may be the source itself. */
module Base64 {

  type Byte = bv8

  const PAD: Byte := 61  // '='

  /** An alphabet gives the character of each 6 bit value. */
  type Alphabet = a: seq<Byte> | |a| == 64 witness seq(64, _ => 0)

  // ---------------------------------------------------------------------------------------------
  // Section 4 of RFC 4648

  /** Three bytes form a 24 bit group; bytes missing at the end count as zero bits. */
  function Group(b1: Byte, b2: Byte, b3: Byte): bv32 {
    ((b1 as bv32) << 16) | ((b2 as bv32) << 8) | (b3 as bv32)
  }

  /** The `k`th of the four 6 bit values of a group, from the left. */
  function Bits(group: bv32, k: nat): bv32 {
    match k
    case 0 => (group >> 18) & 63
    case 1 => (group >> 12) & 63
    case 2 => (group >> 6) & 63
    case _ => group & 63
  }

  function Sextet(group: bv32, k: nat): nat {
    Bits(group, k) as nat
  }

  /** Written as digits to the base 64 the four values make the number that the three bytes make to the base 256. */
  lemma GroupValue(b1: Byte, b2: Byte, b3: Byte)
    ensures var g := Group(b1, b2, b3);
      Bits(g, 0) * 262144 + Bits(g, 1) * 4096 + Bits(g, 2) * 64 + Bits(g, 3) == (b1 as bv32) * 65536 + (b2 as bv32) * 256 + (b3 as bv32)
  {
  }

  /** Encodes a group, keeping the first `kept` characters and padding the rest. */
  function Quantum(alphabet: Alphabet, group: bv32, kept: nat): (q: seq<Byte>)
    ensures |q| == 4
  {
    SextetBound(group);
    [ alphabet[Sextet(group, 0)], alphabet[Sextet(group, 1)],
      if kept < 3 then PAD else alphabet[Sextet(group, 2)],
      if kept < 4 then PAD else alphabet[Sextet(group, 3)] ]
  }

  lemma SextetBound(group: bv32)
    ensures Sextet(group, 0) < 64 && Sextet(group, 1) < 64 && Sextet(group, 2) < 64 && Sextet(group, 3) < 64
  {
    SmallBits(Bits(group, 0));
    SmallBits(Bits(group, 1));
    SmallBits(Bits(group, 2));
    SmallBits(Bits(group, 3));
  }

  lemma SmallBits(x: bv32)
    requires x < 64
    ensures x as nat < 64
  {
  }

  function Encode(alphabet: Alphabet, data: seq<Byte>): seq<Byte> {
    if |data| == 0 then []
    else if |data| == 1 then Quantum(alphabet, Group(data[0], 0, 0), 2)
    else if |data| == 2 then Quantum(alphabet, Group(data[0], data[1], 0), 3)
    else Quantum(alphabet, Group(data[0], data[1], data[2]), 4) + Encode(alphabet, data[3..])
  }

  function EncodedLength(len: nat): nat {
    (len / 3 + if len % 3 != 0 then 1 else 0) * 4
  }

  /** Four characters stand for each three bytes: dropping groups from the source drops their
      quanta from the text. */
  lemma {:induction false} EncodeDrops(alphabet: Alphabet, data: seq<Byte>, groups: nat)
    requires 3 * groups <= |data|
    ensures |Encode(alphabet, data)| == EncodedLength(|data|) >= 4 * groups
    ensures Encode(alphabet, data)[4 * groups..] == Encode(alphabet, data[3 * groups..])
    decreases |data|
  {
    if |data| >= 3 {
      assert EncodedLength(|data|) == 4 + EncodedLength(|data| - 3);
      if groups > 0 {
        EncodeDrops(alphabet, data[3..], groups - 1);
        assert data[3..][3 * (groups - 1)..] == data[3 * groups..];
        var q := Quantum(alphabet, Group(data[0], data[1], data[2]), 4);
        DropPast(q, Encode(alphabet, data[3..]), 4 * (groups - 1));
      } else {
        EncodeDrops(alphabet, data[3..], 0);
        assert data[0..] == data;
      }
    } else {
      assert data[0..] == data;
    }
  }

  lemma DropPast(a: seq<Byte>, b: seq<Byte>, n: nat)
    requires n <= |b|
    ensures (a + b)[|a| + n..] == b[n..]
  {
  }

  // ---------------------------------------------------------------------------------------------
  // The encoder

  /** A (signed) char as the int it is promoted to. */
  function Promote(b: Byte): bv32 {
    if b < 128 then b as bv32 else (b as bv32) | 0xFFFF_FF00
  }

  /** The encoder's shifts and masks, on promoted chars. */
  function Index1(tmp1: bv32): nat {
    ((tmp1 >> 2) & 63) as nat
  }

  function Index2(tmp1: bv32, tmp2: bv32): nat {
    (((tmp1 & 3) << 4) | ((tmp2 >> 4) & 15)) as nat
  }

  function Index3(tmp2: bv32, tmp3: bv32): nat {
    (((tmp2 & 15) << 2) | ((tmp3 >> 6) & 3)) as nat
  }

  function Index4(tmp3: bv32): nat {
    (tmp3 & 63) as nat
  }

  /** They pick the four 6 bit values of the 24 bit group. */
  lemma MasksPickSextets(b1: Byte, b2: Byte, b3: Byte)
    ensures Index1(Promote(b1)) == Sextet(Group(b1, b2, b3), 0) < 64
    ensures Index2(Promote(b1), Promote(b2)) == Sextet(Group(b1, b2, b3), 1) < 64
    ensures Index3(Promote(b2), Promote(b3)) == Sextet(Group(b1, b2, b3), 2) < 64
    ensures Index4(Promote(b3)) == Sextet(Group(b1, b2, b3), 3) < 64
  {
    SextetBound(Group(b1, b2, b3));
    MaskedBits(b1, b2, b3);
  }

  lemma MaskedBits(b1: Byte, b2: Byte, b3: Byte)
    ensures (Promote(b1) >> 2) & 63 == (Group(b1, b2, b3) >> 18) & 63
    ensures ((Promote(b1) & 3) << 4) | ((Promote(b2) >> 4) & 15) == (Group(b1, b2, b3) >> 12) & 63
    ensures ((Promote(b2) & 15) << 2) | ((Promote(b3) >> 6) & 3) == (Group(b1, b2, b3) >> 6) & 63
    ensures Promote(b3) & 63 == Group(b1, b2, b3) & 63
  {
  }

  lemma LoneMasks(tmp: bv32)
    ensures ((tmp & 3) << 4) as nat == Index2(tmp, Promote(0))
    ensures ((tmp & 15) << 2) as nat == Index3(tmp, Promote(0))
  {
    assert (tmp & 3) << 4 == ((tmp & 3) << 4) | ((Promote(0) >> 4) & 15);
    assert (tmp & 15) << 2 == ((tmp & 15) << 2) | ((Promote(0) >> 6) & 3);
  }

  /** The state in the middle of the backward walk over `source`: the bytes of the first `groups`
      groups are still to be read and unharmed, everything behind their place in the target is
      final. `rest` is what follows the text: the NUL byte and the untouched bytes. */
  ghost predicate Walking(alphabet: Alphabet, source: seq<Byte>, groups: nat, data: seq<Byte>, target: seq<Byte>, rest: seq<Byte>)
  {
    && 3 * groups <= |source| <= |data| && 4 * groups <= |target|
    && data[..3 * groups] == source[..3 * groups]
    && target[4 * groups..] == Encode(alphabet, source[3 * groups..]) + rest
  }

  /** Four characters, written from the last to the first. */
  method WriteBack(target: array<Byte>, w: nat, c1: Byte, c2: Byte, c3: Byte, c4: Byte)
    requires w + 4 <= target.Length
    modifies target
    ensures target[w..w + 4] == [c1, c2, c3, c4]
    ensures target[..w] == old(target[..w]) && target[w + 4..] == old(target[w + 4..])
  {
    target[w + 3] := c4;
    target[w + 2] := c3;
    target[w + 1] := c2;
    target[w] := c1;
  }

  /** Writes the last, incomplete quantum, if there is one. */
  method EncodeRest(target: array<Byte>, data: array<Byte>, len: nat, alphabet: Alphabet)
    requires len <= data.Length && EncodedLength(len) < target.Length
    modifies target
    ensures target[..4 * (len / 3)] == old(target[..4 * (len / 3)])
    ensures target[4 * (len / 3)..EncodedLength(len)] == Encode(alphabet, old(data[len - len % 3..len]))
    ensures target[EncodedLength(len)..] == old(target[EncodedLength(len)..])
  {
    hide Sextet, Group, Index1, Index2, Index3;
    var w := 4 * (len / 3);
    if len % 3 == 2 {
      var tmp2, tmp1 := Promote(data[len - 1]), Promote(data[len - 2]);
      MasksPickSextets(data[len - 2], data[len - 1], 0);
      LoneMasks(tmp2);
      WriteBack(target, w, alphabet[Index1(tmp1)], alphabet[Index2(tmp1, tmp2)], alphabet[((tmp2 & 15) << 2) as nat], PAD);
    } else if len % 3 == 1 {
      var tmp1 := Promote(data[len - 1]);
      MasksPickSextets(data[len - 1], 0, 0);
      LoneMasks(tmp1);
      WriteBack(target, w, alphabet[Index1(tmp1)], alphabet[((tmp1 & 3) << 4) as nat], PAD, PAD);
    }
  }

  /** Reads the three bytes of group `g` and writes its four characters. */
  method EncodeGroup(target: array<Byte>, data: array<Byte>, g: nat, alphabet: Alphabet)
    requires 3 * g + 3 <= data.Length && 4 * g + 4 <= target.Length
    modifies target
    ensures var d := old(data[3 * g..3 * g + 3]);
      target[4 * g..4 * g + 4] == Quantum(alphabet, Group(d[0], d[1], d[2]), 4)
    ensures target[..4 * g] == old(target[..4 * g]) && target[4 * g + 4..] == old(target[4 * g + 4..])
  {
    var tmp3, tmp2, tmp1 := Promote(data[3 * g + 2]), Promote(data[3 * g + 1]), Promote(data[3 * g]);
    MasksPickSextets(data[3 * g], data[3 * g + 1], data[3 * g + 2]);
    WriteBack(target, 4 * g, alphabet[Index1(tmp1)], alphabet[Index2(tmp1, tmp2)],
              alphabet[Index3(tmp2, tmp3)], alphabet[Index4(tmp3)]);
  }

  lemma WalkStep(alphabet: Alphabet, source: seq<Byte>, g: nat, data: seq<Byte>, target: seq<Byte>,
                 data': seq<Byte>, target': seq<Byte>, rest: seq<Byte>)
    requires Walking(alphabet, source, g + 1, data, target, rest)
    requires |data'| == |data| && |target'| == |target|
    requires data'[..3 * g] == data[..3 * g]
    requires target'[4 * g..4 * g + 4] == Quantum(alphabet, Group(data[3 * g], data[3 * g + 1], data[3 * g + 2]), 4)
    requires target'[4 * g + 4..] == target[4 * g + 4..]
    ensures Walking(alphabet, source, g, data', target', rest)
  {
    var from, q := source[3 * g..], target'[4 * g..4 * g + 4];
    assert data[..3 * (g + 1)] == source[..3 * (g + 1)];
    assert from[0] == data[3 * g] && from[1] == data[3 * g + 1] && from[2] == data[3 * g + 2];
    assert from[3..] == source[3 * (g + 1)..];
    assert target'[4 * g..] == q + target'[4 * g + 4..];
    assert q + (Encode(alphabet, from[3..]) + rest) == (q + Encode(alphabet, from[3..])) + rest;
    assert data'[..3 * g] == data[..3 * (g + 1)][..3 * g] == source[..3 * g];
  }

  /** Encodes the first `len` bytes of `data` into `target`, which may be the same array, and ends
      the text with a NUL byte. Every byte is read before its place is overwritten. */
  method EncodeInto(target: array<Byte>, data: array<Byte>, len: nat, alphabet: Alphabet) returns (size: nat)
    requires len <= data.Length && EncodedLength(len) < target.Length
    modifies target
    ensures size == EncodedLength(len) == |Encode(alphabet, old(data[..len]))|
    ensures target[..] == Encode(alphabet, old(data[..len])) + [0] + old(target[size + 1..])
  {
    ghost var source := data[..len];
    size := EncodedLength(len);
    ghost var rest := [0] + target[size + 1..];
    EncodeDrops(alphabet, source, 0);
    var groups: nat := len / 3;
    EncodeStart(target, data, len, alphabet);
    hide Encode;
    while groups > 0
      invariant Walking(alphabet, source, groups, data[..], target[..], rest)
    {
      groups := groups - 1;
      StepBack(target, data, groups, source, rest, alphabet);
    }
    assert source[0..] == source;
    assert target[0..] == target[..];
  }

  method StepBack(target: array<Byte>, data: array<Byte>, g: nat, ghost source: seq<Byte>, ghost rest: seq<Byte>, alphabet: Alphabet)
    requires Walking(alphabet, source, g + 1, data[..], target[..], rest)
    modifies target
    ensures Walking(alphabet, source, g, data[..], target[..], rest)
  {
    ghost var d, t := data[..], target[..];
    EncodeGroup(target, data, g, alphabet);
    assert target == data ==> data[..4 * g] == d[..4 * g];
    WalkStep(alphabet, source, g, d, t, data[..], target[..], rest);
  }

  lemma Join(t: seq<Byte>, lo: nat, hi: nat)
    requires lo <= hi <= |t|
    ensures t[lo..] == t[lo..hi] + t[hi..]
  {
  }

  /** The terminating NUL and the incomplete quantum at the end. */
  method EncodeStart(target: array<Byte>, data: array<Byte>, len: nat, alphabet: Alphabet)
    requires len <= data.Length && EncodedLength(len) < target.Length
    modifies target
    ensures Walking(alphabet, old(data[..len]), len / 3, data[..], target[..], [0] + old(target[EncodedLength(len) + 1..]))
  {
    ghost var source := data[..len];
    var size, w := EncodedLength(len), 4 * (len / 3);
    ghost var rest := [0] + target[size + 1..];
    target[size] := 0;
    assert data[..len] == source;
    assert target[size..] == rest;
    EncodeRest(target, data, len, alphabet);
    assert source[3 * (len / 3)..] == source[len - len % 3..len];
    Join(target[..], w, size);
  }

  // ---------------------------------------------------------------------------------------------
  // The text determines the data

  ghost predicate Unambiguous(alphabet: Alphabet) {
    PAD !in alphabet && forall i, j :: 0 <= i < j < 64 ==> alphabet[i] != alphabet[j]
  }

  lemma NatInjective(x: bv32, y: bv32)
    requires x as nat == y as nat
    ensures x == y
  {
    assert (x as nat) as bv32 == x;
    assert (y as nat) as bv32 == y;
  }

  lemma SameBits(g: bv32, h: bv32, k: nat)
    requires Sextet(g, k) == Sextet(h, k)
    ensures Bits(g, k) == Bits(h, k)
  {
    NatInjective(Bits(g, k), Bits(h, k));
  }

  lemma SextetsDetermine(g: bv32, h: bv32)
    requires g < 0x100_0000 && h < 0x100_0000
    requires Sextet(g, 0) == Sextet(h, 0) && Sextet(g, 1) == Sextet(h, 1)
    requires Sextet(g, 2) == Sextet(h, 2) && Sextet(g, 3) == Sextet(h, 3)
    ensures g == h
  {
    SameBits(g, h, 0);
    SameBits(g, h, 1);
    SameBits(g, h, 2);
    SameBits(g, h, 3);
    PiecesDetermine(g, h);
  }

  lemma PiecesDetermine(g: bv32, h: bv32)
    requires g < 0x100_0000 && h < 0x100_0000
    requires Bits(g, 0) == Bits(h, 0) && Bits(g, 1) == Bits(h, 1) && Bits(g, 2) == Bits(h, 2) && Bits(g, 3) == Bits(h, 3)
    ensures g == h
  {
  }

  lemma GroupDetermines(a1: Byte, a2: Byte, a3: Byte, b1: Byte, b2: Byte, b3: Byte)
    ensures Group(a1, a2, a3) < 0x100_0000
    ensures Group(a1, a2, a3) == Group(b1, b2, b3) ==> a1 == b1 && a2 == b2 && a3 == b3
  {
  }

  /** A kept character determines its value; padding looks like no character. */
  lemma CharDetermines(alphabet: Alphabet, i: nat, keptI: bool, j: nat, keptJ: bool)
    requires Unambiguous(alphabet) && i < 64 && j < 64
    requires (if keptI then alphabet[i] else PAD) == (if keptJ then alphabet[j] else PAD)
    ensures keptI == keptJ && (keptI ==> i == j)
  {
    assert alphabet[i] in alphabet && alphabet[j] in alphabet;
  }

  lemma QuantumDetermines(alphabet: Alphabet, g: bv32, m: nat, h: bv32, n: nat)
    requires Unambiguous(alphabet) && 2 <= m <= 4 && 2 <= n <= 4 && g < 0x100_0000 && h < 0x100_0000
    requires (m < 4 ==> Sextet(g, 3) == 0) && (m < 3 ==> Sextet(g, 2) == 0)
    requires (n < 4 ==> Sextet(h, 3) == 0) && (n < 3 ==> Sextet(h, 2) == 0)
    requires Quantum(alphabet, g, m) == Quantum(alphabet, h, n)
    ensures m == n && g == h
  {
    hide Sextet;
    SextetBound(g);
    SextetBound(h);
    var q, r := Quantum(alphabet, g, m), Quantum(alphabet, h, n);
    assert q[0] == r[0] && q[1] == r[1] && q[2] == r[2] && q[3] == r[3];
    CharDetermines(alphabet, Sextet(g, 0), true, Sextet(h, 0), true);
    CharDetermines(alphabet, Sextet(g, 1), true, Sextet(h, 1), true);
    CharDetermines(alphabet, Sextet(g, 2), m >= 3, Sextet(h, 2), n >= 3);
    CharDetermines(alphabet, Sextet(g, 3), m >= 4, Sextet(h, 3), n >= 4);
    SextetsDetermine(g, h);
  }

  /** Bits that come only from missing bytes are zero. */
  lemma MissingBits(b1: Byte, b2: Byte, b3: Byte)
    ensures Group(b1, b2, b3) < 0x100_0000
    ensures b3 == 0 ==> Sextet(Group(b1, b2, b3), 3) == 0
    ensures b3 == 0 && b2 == 0 ==> Sextet(Group(b1, b2, b3), 2) == 0
  {
    assert b3 == 0 ==> Group(b1, b2, b3) & 63 == 0;
    assert b3 == 0 && b2 == 0 ==> (Group(b1, b2, b3) >> 6) & 63 == 0;
  }

  function ByteOr0(data: seq<Byte>, i: nat): Byte {
    if i < |data| then data[i] else 0
  }

  function Kept(data: seq<Byte>): nat {
    if |data| >= 3 then 4 else |data| + 1
  }

  function FirstGroup(data: seq<Byte>): bv32 {
    Group(ByteOr0(data, 0), ByteOr0(data, 1), ByteOr0(data, 2))
  }

  /** A text starts with the quantum of the first three bytes. */
  lemma FirstQuantum(alphabet: Alphabet, data: seq<Byte>)
    requires data != []
    ensures |Encode(alphabet, data)| >= 4
    ensures Encode(alphabet, data)[..4] == Quantum(alphabet, FirstGroup(data), Kept(data))
    ensures |data| >= 3 ==> Encode(alphabet, data)[4..] == Encode(alphabet, data[3..])
  {
    hide Sextet, Quantum, Group;
  }

  /** The first quantum determines the first three bytes, and whether there are that many. */
  lemma HeadDetermines(alphabet: Alphabet, a: seq<Byte>, b: seq<Byte>)
    requires Unambiguous(alphabet) && a != [] && b != []
    requires Quantum(alphabet, FirstGroup(a), Kept(a)) == Quantum(alphabet, FirstGroup(b), Kept(b))
    ensures Kept(a) == Kept(b) && forall i | 0 <= i < 3 :: ByteOr0(a, i) == ByteOr0(b, i)
  {
    hide Sextet, Quantum, Group;
    MissingBits(ByteOr0(a, 0), ByteOr0(a, 1), ByteOr0(a, 2));
    MissingBits(ByteOr0(b, 0), ByteOr0(b, 1), ByteOr0(b, 2));
    QuantumDetermines(alphabet, FirstGroup(a), Kept(a), FirstGroup(b), Kept(b));
    GroupDetermines(ByteOr0(a, 0), ByteOr0(a, 1), ByteOr0(a, 2), ByteOr0(b, 0), ByteOr0(b, 1), ByteOr0(b, 2));
  }

  /** Different data never encode to the same text: nothing is lost. */
  lemma {:induction false} EncodeInjective(alphabet: Alphabet, a: seq<Byte>, b: seq<Byte>)
    requires Unambiguous(alphabet) && Encode(alphabet, a) == Encode(alphabet, b)
    ensures a == b
    decreases |a|
  {
    if a == [] || b == [] {
      assert |Encode(alphabet, a)| == |Encode(alphabet, b)|;
    } else {
      FirstQuantum(alphabet, a);
      FirstQuantum(alphabet, b);
      HeadDetermines(alphabet, a, b);
      if |a| >= 3 {
        EncodeInjective(alphabet, a[3..], b[3..]);
      }
      SameBytes(a, b);
    }
  }

  lemma SameBytes(a: seq<Byte>, b: seq<Byte>)
    requires Kept(a) == Kept(b) && forall i | 0 <= i < 3 :: ByteOr0(a, i) == ByteOr0(b, i)
    requires |a| >= 3 ==> a[3..] == b[3..]
    ensures a == b
  {
    assert |a| == |b|;
    forall i | 0 <= i < |a| ensures a[i] == b[i] {
      if i < 3 {
        assert ByteOr0(a, i) == ByteOr0(b, i);
      } else {
        assert a[i] == a[3..][i - 3];
        assert b[i] == b[3..][i - 3];
      }
    }
  }

  // ---------------------------------------------------------------------------------------------
  // The two alphabets

  const A_TO_M: seq<Byte> := [65, 66, 67, 68, 69, 70, 71, 72, 73, 74, 75, 76, 77]
  const N_TO_Z: seq<Byte> := [78, 79, 80, 81, 82, 83, 84, 85, 86, 87, 88, 89, 90]
  const SMALL_A_TO_M: seq<Byte> := [97, 98, 99, 100, 101, 102, 103, 104, 105, 106, 107, 108, 109]
  const SMALL_N_TO_Z: seq<Byte> := [110, 111, 112, 113, 114, 115, 116, 117, 118, 119, 120, 121, 122]
  const DIGITS: seq<Byte> := [48, 49, 50, 51, 52, 53, 54, 55, 56, 57]

  const ORIGINAL: seq<Byte> := A_TO_M + N_TO_Z + SMALL_A_TO_M + SMALL_N_TO_Z + DIGITS + [43, 47]  // with `+` and `/`
  const FOR_URLS: seq<Byte> := A_TO_M + N_TO_Z + SMALL_A_TO_M + SMALL_N_TO_Z + DIGITS + [45, 95]  // with `-` and `_`

  /** The characters rise from `lo` to `hi`. */
  ghost predicate Rises(s: seq<Byte>, lo: Byte, hi: Byte) {
    (forall k | 0 <= k < |s| :: lo <= s[k] <= hi) && (forall k | 0 < k < |s| :: s[k - 1] < s[k])
  }

  ghost predicate NoRepeats(s: seq<Byte>) {
    forall i, j | 0 <= i < j < |s| :: s[i] != s[j]
  }

  lemma AToMRises()
    ensures |A_TO_M| == 13 && Rises(A_TO_M, 65, 77)
  {
  }

  lemma NToZRises()
    ensures |N_TO_Z| == 13 && Rises(N_TO_Z, 78, 90)
  {
  }

  lemma SmallAToMRises()
    ensures |SMALL_A_TO_M| == 13 && Rises(SMALL_A_TO_M, 97, 109)
  {
  }

  lemma SmallNToZRises()
    ensures |SMALL_N_TO_Z| == 13 && Rises(SMALL_N_TO_Z, 110, 122)
  {
  }

  lemma DigitsRises()
    ensures |DIGITS| == 10 && Rises(DIGITS, 48, 57)
  {
  }

  lemma {:induction false} RisingFrom(s: seq<Byte>, lo: Byte, hi: Byte, i: nat, j: nat)
    requires Rises(s, lo, hi) && i < j < |s|
    ensures s[i] < s[j]
    decreases j
  {
    if i < j - 1 {
      RisingFrom(s, lo, hi, i, j - 1);
    }
  }

  /** A rising run behind characters that are not in its range. */
  lemma RunAdded(s: seq<Byte>, run: seq<Byte>, lo: Byte, hi: Byte)
    requires NoRepeats(s) && Rises(run, lo, hi) && forall k | 0 <= k < |s| :: s[k] < lo || s[k] > hi
    ensures NoRepeats(s + run)
  {
    forall i, j | 0 <= i < j < |run| ensures run[i] != run[j] {
      RisingFrom(run, lo, hi, i, j);
    }
  }

  /** The letters and digits repeat nothing, and none of them is one of the other characters. */
  lemma LettersAndDigits()
    ensures var s := A_TO_M + N_TO_Z + SMALL_A_TO_M + SMALL_N_TO_Z + DIGITS;
      |s| == 62 && NoRepeats(s) && forall k | 0 <= k < 62 :: 48 <= s[k] <= 122 && s[k] != 61 && s[k] != 95
  {
    AToMRises();
    NToZRises();
    SmallAToMRises();
    SmallNToZRises();
    DigitsRises();
    hide A_TO_M, N_TO_Z, SMALL_A_TO_M, SMALL_N_TO_Z, DIGITS;
    RunAdded([], A_TO_M, 65, 77);
    assert [] + A_TO_M == A_TO_M;
    RunAdded(A_TO_M, N_TO_Z, 78, 90);
    RunAdded(A_TO_M + N_TO_Z, SMALL_A_TO_M, 97, 109);
    RunAdded(A_TO_M + N_TO_Z + SMALL_A_TO_M, SMALL_N_TO_Z, 110, 122);
    RunAdded(A_TO_M + N_TO_Z + SMALL_A_TO_M + SMALL_N_TO_Z, DIGITS, 48, 57);
  }

  /** Neither alphabet repeats a character or has the padding in it. */
  lemma AlphabetsUnambiguous()
    ensures |ORIGINAL| == |FOR_URLS| == 64 && Unambiguous(ORIGINAL) && Unambiguous(FOR_URLS)
  {
    LettersAndDigits();
    hide A_TO_M, N_TO_Z, SMALL_A_TO_M, SMALL_N_TO_Z, DIGITS;
  }

  lemma RisesOn(a: seq<Byte>, b: seq<Byte>, lo: Byte, mid: Byte, next: Byte, hi: Byte)
    requires Rises(a, lo, mid) && Rises(b, next, hi) && lo <= mid < next <= hi
    ensures Rises(a + b, lo, hi)
  {
    var s := a + b;
    forall k | 0 <= k < |s| ensures lo <= s[k] <= hi {
      if k < |a| { assert s[k] == a[k]; } else { assert s[k] == b[k - |a|]; }
    }
    forall k | 0 < k < |s| ensures s[k - 1] < s[k] {
      if k < |a| { assert s[k - 1] == a[k - 1] && s[k] == a[k]; }
      else if k > |a| { assert s[k - 1] == b[k - |a| - 1] && s[k] == b[k - |a|]; }
      else { assert s[k - 1] == a[k - 1] && s[k] == b[0]; }
    }
  }

  /** Which 6 bit value each character stands for: 0 to 25 the capital letters, 26 to 51 the small ones, 52 to 61 the
      digits, each in their order, then the two that the alphabets differ in (sections 4 and 5 of RFC 4648). */
  lemma AlphabetsInOrder(a: seq<Byte>)
    requires a == ORIGINAL || a == FOR_URLS
    ensures |a| == 64 && Rises(a[..26], 65, 90) && Rises(a[26..52], 97, 122) && Rises(a[52..62], 48, 57)
    ensures a == ORIGINAL ==> a[62] == 43 && a[63] == 47
    ensures a == FOR_URLS ==> a[62] == 45 && a[63] == 95
  {
    AToMRises();
    NToZRises();
    SmallAToMRises();
    SmallNToZRises();
    DigitsRises();
    hide A_TO_M, N_TO_Z, SMALL_A_TO_M, SMALL_N_TO_Z, DIGITS;
    RisesOn(A_TO_M, N_TO_Z, 65, 77, 78, 90);
    RisesOn(SMALL_A_TO_M, SMALL_N_TO_Z, 97, 109, 110, 122);
    assert a[..26] == A_TO_M + N_TO_Z && a[26..52] == SMALL_A_TO_M + SMALL_N_TO_Z && a[52..62] == DIGITS;
    hide Rises;
  }
}
