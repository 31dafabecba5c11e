/** What the reader of integers makes of any text that starts like a number: spaces, a sign, the mark of a base, zeros,
    digits in either case, and whatever follows. */
module NumberForms {
  import opened Options
  import opened Numbers

  /** The parts of such a text. */
  datatype Form = Form(spaces: string, sign: string, mark: string, zeros: string, digits: string, rest: string)

  function Text(f: Form): string {
    f.spaces + f.sign + f.mark + f.zeros + f.digits + f.rest
  }

  /** How the bases are marked. */
  predicate Marks(mark: string, base: Base) {
    match base
    case 2 => mark == "b" || mark == "B" || mark == "0b" || mark == "0B"
    case 16 => mark == "x" || mark == "X" || mark == "0x" || mark == "0X"
    case 8 => mark == "0"
    case 10 => mark == ""
    case _ => false
  }

  /** What follows does not belong to the number. */
  predicate Follows(f: Form, base: Base) {
    f.rest == "" ||
    (!IsDigit(f.rest[0], base)
     && (base == 8 && f.zeros == "" && f.digits == "" ==> f.rest[0] != 'b' && f.rest[0] != 'B' && f.rest[0] != 'x' && f.rest[0] != 'X'))
  }

  predicate Proper(f: Form, base: Base) {
    && (forall i | 0 <= i < |f.spaces| :: IsSpace(f.spaces[i])) && (f.sign == "" || f.sign == "-" || f.sign == "+")
    && Marks(f.mark, base) && (forall i | 0 <= i < |f.zeros| :: f.zeros[i] == '0') && (base == 10 ==> f.zeros == "" && f.digits != "")
    && AllDigits(f.digits, base) && (f.digits != "" ==> f.digits[0] != '0') && Follows(f, base)
  }

  /** The places in the text: where the sign, the mark, the digits and the rest start. */
  lemma Places(f: Form)
    ensures var s, j, k := Text(f), |f.spaces|, |f.spaces| + |f.sign|;
      var i := k + |f.mark| + |f.zeros|;
      && (forall x | 0 <= x < j :: s[x] == f.spaces[x]) && (forall x | j <= x < k :: s[x] == f.sign[x - j])
      && (forall x | k <= x < k + |f.mark| :: s[x] == f.mark[x - k])
      && (forall x | k + |f.mark| <= x < i :: s[x] == f.zeros[x - k - |f.mark|])
      && i + |f.digits| == |s| - |f.rest| && s[i..i + |f.digits|] == f.digits && s[i + |f.digits|..] == f.rest
  {
  }

  lemma {:induction false} SkipsSpaces(s: string, i: nat, j: nat)
    requires i <= j <= |s| && (forall x | i <= x < j :: IsSpace(s[x])) && (j < |s| ==> !IsSpace(s[j]))
    ensures SkipSpaces(s, i) == j
    decreases j - i
  {
    if i < j {
      SkipsSpaces(s, i + 1, j);
    }
  }

  /** Zeros and digits in front of something else. */
  lemma ReadsRun(s: string, i: nat, z: nat, d: string, base: Base, limit: int)
    requires i + z + |d| <= |s| && (forall x | i <= x < i + z :: s[x] == '0') && s[i + z..i + z + |d|] == d
    requires AllDigits(d, base) && (d != "" ==> d[0] != '0') && (i + z + |d| < |s| ==> !IsDigit(s[i + z + |d|], base))
    requires Value(d, base, 0) < TWO64 <= base * (limit + 1)
    ensures Consume(s, SkipZeros(s, i), base, 0, limit) == (Value(d, base, 0), i + z + |d|)
  {
    if d != "" {
      assert s[i + z] == d[0];
    } else if i + z < |s| {
      assert IsDigit('0', base);
    }
    SkipZerosRun(s, i, z);
    ConsumeReads(s, i + z, d, base, 0, limit);
  }

  /** The number that the sign and the digits stand for: in bases 2 and 16 the digits are the 64 bits of it. */
  function Meaning(f: Form, base: Base): int
    requires AllDigits(f.digits, base)
  {
    var v := Value(f.digits, base, 0);
    var n := if (base == 2 || base == 16) && v >= TWO63 then v - TWO64 else v;
    if f.sign == "-" && n != -TWO63 then -n else n
  }

  lemma Unmarked(f: Form, base: Base)
    requires Proper(f, base) && (base == 8 || base == 10)
    ensures var s, k := Text(f), |f.spaces| + |f.sign|;
      && !HasPrefix(s, k, 'b', 'B') && !HasPrefix(s, k, 'x', 'X') && k < |s| && (s[k] == '0' <==> base == 8)
  {
    Places(f);
    var s, k := Text(f), |f.spaces| + |f.sign|;
    var i := k + |f.mark| + |f.zeros|;
    if base == 10 {
      assert s[k] == f.digits[0];
    } else {
      assert s[k] == f.mark[0];
      if f.zeros != "" {
        assert s[k + 1] == f.zeros[0];
      } else if f.digits != "" {
        assert s[k + 1] == f.digits[0];
      } else if f.rest != "" {
        assert s[k + 1] == f.rest[0];
      }
    }
  }

  lemma ReadsTwo(f: Form)
    requires Proper(f, 2) && Value(f.digits, 2, 0) < TWO64
    ensures ReadUnsigned(Text(f), |f.spaces| + |f.sign|) == Some((Value(f.digits, 2, 0) as UInt64, |Text(f)| - |f.rest|))
  {
    Places(f);
    var s, k := Text(f), |f.spaces| + |f.sign|;
    hide Text, Value, SkipZeros, Consume, DigitValue;
    assert f.rest != "" ==> s[|s| - |f.rest|] == f.rest[0];
    assert HasPrefix(s, k, 'b', 'B') && AfterPrefix(s, k) == k + |f.mark|;
    ReadsRun(s, k + |f.mark|, |f.zeros|, f.digits, 2, TWO64);
  }

  /** The digits, with the zeros before them, in a base that is marked or not. */
  lemma ReadsDigits(f: Form, base: Base, marked: nat)
    requires Proper(f, base) && Value(f.digits, base, 0) < TWO64
    requires (base == 16 && marked == |f.mark|) || ((base == 8 || base == 10) && marked == 0)
    ensures ReadDigits(Text(f), |f.spaces| + |f.sign| + marked, base) == Some((Value(f.digits, base, 0) as UInt64, |Text(f)| - |f.rest|))
  {
    var s, i, z := Text(f), |f.spaces| + |f.sign| + marked, |f.mark| - marked + |f.zeros|;
    hide Text, Value, ReadDigits, IsDigit, Proper, AllDigits;
    DigitsAt(f);
    ZerosAt(f, base, marked);
    EndsBefore(f, base);
    RunOfDigits(s, i, z, f.digits, base);
  }

  lemma DigitsAt(f: Form)
    ensures var i := |f.spaces| + |f.sign| + |f.mark| + |f.zeros|;
      i + |f.digits| == |Text(f)| - |f.rest| <= |Text(f)| && Text(f)[i..i + |f.digits|] == f.digits
  {
    Places(f);
  }

  lemma RunOfDigits(s: string, i: nat, z: nat, d: string, base: Base)
    requires base == 8 || base == 10 || base == 16
    requires i + z + |d| <= |s| && (forall x | i <= x < i + z :: s[x] == '0') && s[i + z..i + z + |d|] == d
    requires AllDigits(d, base) && (d != "" ==> d[0] != '0') && (i + z + |d| < |s| ==> !IsDigit(s[i + z + |d|], base))
    requires Value(d, base, 0) < TWO64
    ensures ReadDigits(s, i, base) == Some((Value(d, base, 0) as UInt64, i + z + |d|))
  {
    LimitIsEnough(base);
    hide Value, SkipZeros, Consume, Limit;
    ReadsRun(s, i, z, d, base, Limit(base));
  }

  lemma ZerosAt(f: Form, base: Base, marked: nat)
    requires Proper(f, base)
    requires (base == 16 && marked == |f.mark|) || ((base == 8 || base == 10) && marked == 0)
    ensures var s, i, z := Text(f), |f.spaces| + |f.sign| + marked, |f.mark| - marked + |f.zeros|;
      i + z <= |s| && forall x | i <= x < i + z :: s[x] == '0'
  {
    Places(f);
    hide Text, DigitValue;
  }

  lemma EndsBefore(f: Form, base: Base)
    requires Proper(f, base)
    ensures var s := Text(f); var e := |s| - |f.rest|;
      0 <= e <= |s| && (e < |s| ==> !IsDigit(s[e], base)) && AllDigits(f.digits, base) && (f.digits != "" ==> f.digits[0] != '0')
  {
    Places(f);
    hide Text, DigitValue;
    assert f.rest != "" ==> Text(f)[|Text(f)| - |f.rest|] == f.rest[0];
  }

  lemma MarkedHex(f: Form)
    requires Proper(f, 16)
    ensures var s, k := Text(f), |f.spaces| + |f.sign|;
      !HasPrefix(s, k, 'b', 'B') && HasPrefix(s, k, 'x', 'X') && AfterPrefix(s, k) == k + |f.mark|
  {
    Places(f);
    hide Text, Value, ReadDigits, AllDigits, Follows;
  }

  lemma ReadsSixteen(f: Form)
    requires Proper(f, 16) && Value(f.digits, 16, 0) < TWO64
    ensures ReadUnsigned(Text(f), |f.spaces| + |f.sign|) == Some((Value(f.digits, 16, 0) as UInt64, |Text(f)| - |f.rest|))
  {
    MarkedHex(f);
    ReadsDigits(f, 16, |f.mark|);
    hide Text, Value, ReadDigits, AllDigits, Proper, HasPrefix, AfterPrefix;
  }

  lemma ReadsUnmarked(f: Form, base: Base)
    requires Proper(f, base) && (base == 8 || base == 10) && Value(f.digits, base, 0) < TWO63
    ensures ReadUnsigned(Text(f), |f.spaces| + |f.sign|) == Some((Value(f.digits, base, 0) as UInt64, |Text(f)| - |f.rest|))
  {
    Unmarked(f, base);
    ReadsDigits(f, base, 0);
    hide Text, Value, ReadDigits, AllDigits, Proper, HasPrefix;
  }

  lemma ReadsUnsigned(f: Form, base: Base)
    requires Proper(f, base) && Value(f.digits, base, 0) < if base == 2 || base == 16 then TWO64 else TWO63
    ensures ReadUnsigned(Text(f), |f.spaces| + |f.sign|) == Some((Value(f.digits, base, 0) as UInt64, |Text(f)| - |f.rest|))
  {
    hide ReadUnsigned, Text, Value, AllDigits;
    match base
    case 2 => ReadsTwo(f);
    case 16 => ReadsSixteen(f);
    case _ => ReadsUnmarked(f, base);
  }

  /** The text has no white space where the number starts. */
  lemma SpacesEnd(f: Form, base: Base)
    requires Proper(f, base)
    ensures var s, j := Text(f), |f.spaces|;
      && SkipSpaces(s, 0) == j && j < |s| && (s[j] == '-' <==> f.sign == "-") && (s[j] == '+' <==> f.sign == "+")
  {
    Places(f);
    var s, j := Text(f), |f.spaces|;
    hide Text, Value, AllDigits;
    if f.sign != "" {
      assert s[j] == f.sign[0];
    } else if f.mark != "" {
      assert s[j] == f.mark[0];
    } else {
      assert s[j] == f.digits[0] && IsDigit(f.digits[0], base) by { FirstDigit(f, base); }
    }
    SkipsSpaces(s, 0, j);
  }

  lemma FirstDigit(f: Form, base: Base)
    requires Proper(f, base) && f.sign == "" && f.mark == ""
    ensures |f.spaces| < |Text(f)| && Text(f)[|f.spaces|] == f.digits[0] && IsDigit(f.digits[0], base)
  {
    Places(f);
  }

  /** A text of this form is read as what its sign and digits mean, up to where they end, whatever follows. */
  lemma ReadsForm(f: Form, base: Base)
    requires Proper(f, base) && Value(f.digits, base, 0) < if base == 2 || base == 16 then TWO64 else TWO63
    ensures Read(Text(f), 0) == (Meaning(f, base), |Text(f)| - |f.rest|)
  {
    ReadsUnsigned(f, base);
    SpacesEnd(f, base);
    hide Value, ReadUnsigned, Text, SkipSpaces, AllDigits, Marks, Follows;
  }

  /** The letters of hex digits count from ten, in either case, and no other character is one. */
  lemma HexDigits(c: char)
    ensures 'a' <= c <= 'f' ==> DigitValue(c) == 10 + (c as int - 'a' as int)
    ensures 'A' <= c <= 'F' ==> DigitValue(c) == 10 + (c as int - 'A' as int)
    ensures '0' <= c <= '9' ==> DigitValue(c) == c as int - '0' as int
    ensures !('a' <= c <= 'f') && !('A' <= c <= 'F') && !('0' <= c <= '9') ==> !IsDigit(c, 16)
  {
  }

  // ---------------------------------------------------------------------------------------------
  // What the guards of the printed form are for: its first digit tells the sign

  lemma Regroups(x: int, p: int, b: int)
    ensures x * (b * p) == (x * p) * b
  {
  }

  lemma Between(q: int, r: int, low: int, high: int, b: int)
    requires low <= q < high && 0 <= r < b
    ensures low * b <= q * b + r < high * b
  {
    assert low * b <= q * b;
    assert (q + 1) * b <= high * b;
  }

  /** The first digit says how large a number of so many digits is. */
  lemma {:induction false} FirstDigitSays(n: nat, base: Base)
    requires n > 0
    ensures var d := Digits(n, base); |d| > 0 && 0 < DigitValue(d[0]) < base
    ensures var d := Digits(n, base); var v, p := DigitValue(d[0]), Pow(base, |d| - 1); v * p <= n < (v + 1) * p
    decreases n
  {
    DivMod(n, base);
    var d := Digits(n, base);
    if n < base {
      CharDigits(n);
      assert n % base == n && d == [DigitChar(n)];
    } else {
      var q := n / base;
      FirstDigitSays(q, base);
      var e := Digits(q, base);
      var v, p := DigitValue(e[0]), Pow(base, |e| - 1);
      assert d[0] == e[0] && |d| - 1 == |e|;
      Between(q, n % base, v * p, (v + 1) * p, base);
      Regroups(v, p, base);
      Regroups(v + 1, p, base);
    }
  }

  /** A printed binary number starts with a 1 if and only if it is negative. */
  lemma BinaryTellsSign(num: Int64)
    requires num != 0
    ensures var s := Printed(num, 2); |s| > 2 && (s[2] == '1' <==> num < 0)
  {
    FirstDigitSays(Unsigned(num), 2);
    var d := Digits(Unsigned(num), 2);
    assert num < 0 ==> Printed(num, 2)[2] == d[0];
    hide Digits;
  }

  lemma HexPowers()
    ensures Pow(16, 14) == 0x100_0000_0000_0000 && Pow(16, 15) == 0x1000_0000_0000_0000 && Pow(16, 16) == TWO64
  {
    assert Pow(16, 4) == 0x1_0000;
    assert Pow(16, 8) == 0x1_0000_0000 by { assert Pow(16, 6) == 256 * Pow(16, 4); }
    assert Pow(16, 12) == 0x1_0000_0000_0000 by { assert Pow(16, 10) == 256 * Pow(16, 8); }
  }

  lemma {:induction false} PowGrows(base: Base, a: nat, b: nat)
    requires a <= b
    ensures 0 < Pow(base, a) <= Pow(base, b)
    decreases b
  {
    if a < b {
      PowGrows(base, a, b - 1);
      assert Pow(base, b - 1) <= base * Pow(base, b - 1);
    } else if a > 0 {
      PowGrows(base, a - 1, a - 1);
    }
  }

  /** How many hex digits a number has. */
  lemma HexSize(u: UInt64)
    requires u > 0
    ensures var d := Digits(u, 16); 1 <= |d| <= 16 && 0 < DigitValue(d[0]) < 16
    ensures |Digits(u, 16)| == 16 ==> (DigitValue(Digits(u, 16)[0]) >= 8 <==> u >= TWO63) && u >= 0x1000_0000_0000_0000
    ensures |Digits(u, 16)| == 15 ==> 0x100_0000_0000_0000 <= u < 0x1000_0000_0000_0000
    ensures |Digits(u, 16)| <= 14 ==> u < 0x100_0000_0000_0000
  {
    FirstDigitSays(u, 16);
    var k, v := |Digits(u, 16)|, DigitValue(Digits(u, 16)[0]);
    HexPowers();
    DigitsLength(u, 16, 16);
    hide Digits, DigitValue;
    var p := Pow(16, k - 1);
    Scaled(v, p);
    if k <= 14 {
      PowGrows(16, k, 14);
      assert Pow(16, k) == 16 * p;
    }
  }

  lemma Scaled(v: int, p: int)
    requires 0 < v < 16 && p >= 0
    ensures p <= v * p && (v + 1) * p <= 16 * p && (v >= 8 ==> v * p >= 8 * p) && (v < 8 ==> (v + 1) * p <= 8 * p)
  {
  }

  /** A printed hex number has whole bytes, and the first of them has its top bit set if and only if the number is
      negative. */
  lemma HexTellsSign(num: Int64)
    requires num != 0
    ensures var s := Printed(num, 16); |s| > 3 && |s| % 2 == 0 && (DigitValue(s[2]) >= 8 <==> num < 0)
  {
    var u := Unsigned(num);
    HexSize(u);
    var d := Digits(u, 16);
    hide Digits;
    assert EvenHex(u)[0] >= '8' <==> DigitValue(EvenHex(u)[0]) >= 8;
  }
}
