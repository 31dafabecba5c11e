/** Printing a signed 64 bit integer in a base and reading it back. */
module Numbers {
  import opened Options

  const TWO63: int := 0x8000_0000_0000_0000
  const TWO64: int := 0x1_0000_0000_0000_0000
  const NUL: char := '\0'

  type Int64 = x: int | -TWO63 <= x < TWO63
  type UInt64 = x: nat | x < TWO64
  type Base = b: nat | 2 <= b <= 16 witness 2

  /** The 64 bit pattern of a signed number, and back. */
  function Unsigned(x: Int64): UInt64 {
    if x < 0 then x + TWO64 else x
  }

  function Signed(x: UInt64): Int64 {
    if x >= TWO63 then x - TWO64 else x
  }

  /** Text in memory, with a NUL behind it. */
  function At(s: string, i: nat): char {
    if i < |s| then s[i] else NUL
  }

  // ---------------------------------------------------------------------------------------------
  // Digits

  function DigitChar(d: nat): char
    requires d < 16
  {
    "0123456789ABCDEF"[d]
  }

  /** The value of a hex digit, or -1. */
  function DigitValue(c: char): (v: int)
    ensures -1 <= v < 16
  {
    if '0' <= c <= '9' then c as int - '0' as int
    else if 'A' <= c <= 'F' then c as int - 'A' as int + 10
    else if 'a' <= c <= 'f' then c as int - 'a' as int + 10
    else -1
  }

  predicate IsDigit(c: char, base: Base) {
    0 <= DigitValue(c) < base
  }

  /** The digits of a number, most significant first; none for zero. */
  function Digits(n: nat, base: Base): string {
    if n == 0 then "" else Digits(n / base, base) + [DigitChar(n % base)]
  }

  predicate AllDigits(s: string, base: Base) {
    forall i :: 0 <= i < |s| ==> IsDigit(s[i], base)
  }

  /** The number that a string of digits stands for, `acc` being the digits before it. */
  function Value(s: string, base: Base, acc: nat): nat
    requires AllDigits(s, base)
  {
    if s == "" then acc else Value(s[1..], base, acc * base + DigitValue(s[0]))
  }

  lemma CharDigits(d: nat)
    requires d < 16
    ensures DigitValue(DigitChar(d)) == d
  {
  }

  lemma DivMod(n: nat, base: Base)
    ensures n == (n / base) * base + n % base && 0 <= n % base < base
    ensures n > 0 ==> n / base < n
    ensures n / base == 0 <==> n < base
  {
  }

  lemma {:induction false} ValueSnoc(s: string, c: char, base: Base, acc: nat)
    requires AllDigits(s, base) && IsDigit(c, base)
    ensures AllDigits(s + [c], base)
    ensures Value(s + [c], base, acc) == Value(s, base, acc) * base + DigitValue(c)
    decreases s
  {
    if s == "" {
      assert ([c])[1..] == "";
    } else {
      assert (s + [c])[1..] == s[1..] + [c];
      ValueSnoc(s[1..], c, base, acc * base + DigitValue(s[0]));
    }
  }

  lemma {:induction false} DigitsValue(n: nat, base: Base)
    ensures AllDigits(Digits(n, base), base) && Value(Digits(n, base), base, 0) == n
  {
    if n > 0 {
      DivMod(n, base);
      DigitsValue(n / base, base);
      CharDigits(n % base);
      ValueSnoc(Digits(n / base, base), DigitChar(n % base), base, 0);
    }
  }

  lemma {:induction false} DigitsLead(n: nat, base: Base)
    requires n > 0
    ensures Digits(n, base) != "" && Digits(n, base)[0] != '0'
  {
    DivMod(n, base);
    if n < base {
      CharDigits(n);
      assert n % base == n;
    } else {
      DigitsLead(n / base, base);
    }
  }

  function Pow(base: nat, k: nat): nat {
    if k == 0 then 1 else base * Pow(base, k - 1)
  }

  lemma ProductGrows(x: int, y: int, base: Base)
    ensures x <= y ==> x * base <= y * base
  {
  }

  lemma DivBelow(n: nat, base: Base, m: nat)
    requires n < base * m
    ensures n / base < m
  {
    DivMod(n, base);
    ProductGrows(m, n / base, base);
  }

  /** A number below `base` to the `k` has at most `k` digits. */
  lemma {:induction false} DigitsLength(n: nat, base: Base, k: nat)
    requires n < Pow(base, k)
    ensures |Digits(n, base)| <= k
  {
    if n > 0 {
      DivBelow(n, base, Pow(base, k - 1));
      DigitsLength(n / base, base, k - 1);
    }
  }

  // ---------------------------------------------------------------------------------------------
  // The printed form

  function Magnitude(num: int): nat {
    if num < 0 then -num else num
  }

  function Sign(num: Int64): string {
    if num < 0 then "-" else ""
  }

  function Pad(d: string): string {
    if |d| % 2 == 1 then "0" + d else d
  }

  /** Hex digits in whole bytes. */
  function EvenHex(u: nat): string {
    Pad(Digits(u, 16))
  }

  /** Printed after the prefix so that the number does not look negative. */
  function BinaryGuard(u: UInt64): string {
    if u < TWO63 then "0" else ""
  }

  function HexGuard(u: UInt64): string {
    if u < 0x100_0000_0000_0000 && |EvenHex(u)| > 0 && EvenHex(u)[0] >= '8' then "00" else ""
  }

  /** Bases 1 and 2 print the bits, 16 the bytes, 8 and the other bases below 10 sign and digits; any
      base not supported prints base 10. */
  function Printed(num: Int64, base: nat): string {
    if base == 1 || base == 2 then
      if num == 0 then "0b0" else "0b" + BinaryGuard(Unsigned(num)) + Digits(Unsigned(num), 2)
    else if base == 16 then
      if num == 0 then "0x00" else "0x" + HexGuard(Unsigned(num)) + EvenHex(Unsigned(num))
    else if num == 0 then
      if base == 8 then "00" else "0"
    else if base == 8 then Sign(num) + "0" + Digits(Magnitude(num), 8)
    else Sign(num) + Digits(Magnitude(num), if 3 <= base <= 9 then base else 10)
  }

  // ---------------------------------------------------------------------------------------------
  // Reading

  predicate IsSpace(c: char) {
    c == ' ' || 9 <= c as int <= 13
  }

  function SkipSpaces(s: string, i: nat): (r: nat)
    decreases |s| - i
  {
    if i < |s| && IsSpace(s[i]) then SkipSpaces(s, i + 1) else i
  }

  function SkipZeros(s: string, i: nat): (r: nat)
    decreases |s| - i
  {
    if i < |s| && s[i] == '0' then SkipZeros(s, i + 1) else i
  }

  /** Reads digits into a 64 bit word for as long as the word is at most `limit`. */
  function Consume(s: string, i: nat, base: Base, acc: UInt64, limit: int): (r: (UInt64, nat))
    decreases |s| - i
  {
    if i < |s| && IsDigit(s[i], base) && acc <= limit then
      Consume(s, i + 1, base, (acc * base + DigitValue(s[i])) % TWO64, limit)
    else (acc, i)
  }

  function Limit(base: Base): int {
    TWO64 - 1 - base * base
  }

  /** The digits of one base from `i` on; None if there are too many. */
  function ReadDigits(s: string, i: nat, base: Base): Option<(UInt64, nat)> {
    var r := Consume(s, SkipZeros(s, i), base, 0, Limit(base));
    if IsDigit(At(s, r.1), base) then None else Some(r)
  }

  predicate HasPrefix(s: string, i: nat, lower: char, upper: char) {
    At(s, i) == lower || At(s, i) == upper || (At(s, i) == '0' && (At(s, i + 1) == lower || At(s, i + 1) == upper))
  }

  function AfterPrefix(s: string, i: nat): nat {
    if At(s, i) == '0' then i + 2 else i + 1
  }

  /** Bases 2 and 16 carry the sign in the top bit; in the others it is clamped. */
  function Clamp(u: UInt64): UInt64 {
    if u >= TWO63 then TWO63 - 1 else u
  }

  function ReadUnsigned(s: string, i: nat): Option<(UInt64, nat)> {
    if HasPrefix(s, i, 'b', 'B') then
      Some(Consume(s, SkipZeros(s, AfterPrefix(s, i)), 2, 0, TWO64))
    else if HasPrefix(s, i, 'x', 'X') then ReadDigits(s, AfterPrefix(s, i), 16)
    else
      match ReadDigits(s, i, if At(s, i) == '0' then 8 else 10)
      case None => None
      case Some(r) => Some((Clamp(r.0), r.1))
  }

  function Negate(u: UInt64): UInt64 {
    if u == 0 then 0 else TWO64 - u
  }

  /** The number read at `i` and where the cursor ends up; too many digits leave it where it was. */
  function Read(s: string, i: nat): (Int64, nat) {
    var j := SkipSpaces(s, i);
    var k := if At(s, j) == '-' || At(s, j) == '+' then j + 1 else j;
    match ReadUnsigned(s, k)
    case None => (0, i)
    case Some(r) => (Signed(if At(s, j) == '-' then Negate(r.0) else r.0), r.1)
  }

  // ---------------------------------------------------------------------------------------------
  // Reading gives back what was printed

  lemma StepUp(acc: nat, base: Base, d: nat)
    ensures acc * base + d >= acc * base >= acc
  {
  }

  lemma {:induction false} ValueGrows(s: string, base: Base, acc: nat)
    requires AllDigits(s, base)
    ensures Value(s, base, acc) >= acc
    decreases s
  {
    if s != "" {
      var d := DigitValue(s[0]);
      StepUp(acc, base, d);
      ValueGrows(s[1..], base, acc * base + d);
    }
  }

  lemma WithinLimit(acc: nat, base: Base, limit: int, next: nat)
    requires acc * base <= next < TWO64 <= base * (limit + 1)
    ensures acc <= limit
  {
    ProductGrows(limit + 1, acc, base);
  }

  /** Consuming a run of digits whose value stays in range computes that value. */
  lemma {:induction false} ConsumeReads(s: string, i: nat, d: string, base: Base, acc: UInt64, limit: int)
    requires i + |d| <= |s| && s[i..i + |d|] == d && AllDigits(d, base)
    requires i + |d| < |s| ==> !IsDigit(s[i + |d|], base)
    requires Value(d, base, acc) < TWO64 <= base * (limit + 1)
    ensures Consume(s, i, base, acc, limit) == (Value(d, base, acc), i + |d|)
    decreases |d|
  {
    hide DigitValue;
    if d != "" {
      var next := acc * base + DigitValue(d[0]);
      assert s[i] == d[0];
      ValueGrows(d[1..], base, next);
      StepUp(acc, base, DigitValue(d[0]));
      WithinLimit(acc, base, limit, next);
      assert s[i + 1..i + 1 + |d[1..]|] == d[1..];
      ConsumeReads(s, i + 1, d[1..], base, next, limit);
      Small(next);
    }
  }

  lemma Small(u: nat)
    requires u < TWO64
    ensures u % TWO64 == u
  {
  }

  lemma {:induction false} SkipZerosRun(s: string, i: nat, z: nat)
    requires i + z <= |s| && (forall k :: i <= k < i + z ==> s[k] == '0')
    requires i + z < |s| ==> s[i + z] != '0'
    ensures SkipZeros(s, i) == i + z
    decreases z
  {
    if z > 0 {
      SkipZerosRun(s, i + 1, z - 1);
    }
  }

  /** Zeros and then the digits of `n` up to the end of the text read as `n`. */
  lemma ReadRun(s: string, i: nat, z: nat, n: UInt64, base: Base, limit: int)
    requires i + z <= |s| && (forall k :: i <= k < i + z ==> s[k] == '0')
    requires s[i + z..] == Digits(n, base) && TWO64 <= base * (limit + 1)
    ensures Consume(s, SkipZeros(s, i), base, 0, limit) == (n, |s|)
  {
    var d := Digits(n, base);
    DigitsValue(n, base);
    if n > 0 {
      DigitsLead(n, base);
      assert s[i + z] == d[0];
    }
    SkipZerosRun(s, i, z);
    assert s[i + z..i + z + |d|] == d;
    ConsumeReads(s, i + z, d, base, 0, limit);
  }

  lemma LimitIsEnough(base: Base)
    requires base == 8 || base == 10 || base == 16
    ensures TWO64 <= base * (Limit(base) + 1)
  {
  }

  lemma ReadBinary(num: Int64)
    ensures Read(Printed(num, 2), 0) == (num, |Printed(num, 2)|)
  {
    var s, u := Printed(num, 2), Unsigned(num);
    var z := if num == 0 then 1 else |BinaryGuard(u)|;
    assert s[2 + z..] == Digits(u, 2);
    ReadRun(s, 2, z, u, 2, TWO64);
    assert SkipSpaces(s, 0) == 0;
  }

  /** Zeros and hex digits behind a prefix read as the number with these bits. */
  lemma ReadBehindX(s: string, z: nat, u: UInt64)
    requires 2 + z <= |s| && s[0] == '0' && s[1] == 'x' && forall k | 2 <= k < 2 + z :: s[k] == '0'
    requires s[2 + z..] == Digits(u, 16)
    ensures Read(s, 0) == (Signed(u), |s|)
  {
    hide Digits, DigitChar;
    LimitIsEnough(16);
    ReadRun(s, 2, z, u, 16, Limit(16));
    assert SkipSpaces(s, 0) == 0;
  }

  /** The printed form is the prefix, zeros and the digits. */
  lemma HexShape(num: Int64) returns (z: nat)
    ensures var s := Printed(num, 16);
      2 + z <= |s| && s[0] == '0' && s[1] == 'x' && (forall k | 2 <= k < 2 + z :: s[k] == '0')
      && s[2 + z..] == Digits(Unsigned(num), 16)
  {
    var s, d := Printed(num, 16), Digits(Unsigned(num), 16);
    hide DigitChar;
    z := if num == 0 then 2 else |HexGuard(Unsigned(num))| + |EvenHex(Unsigned(num))| - |d|;
    assert s[2 + z..] == d;
  }

  lemma ReadHex(num: Int64)
    ensures Read(Printed(num, 16), 0) == (num, |Printed(num, 16)|)
  {
    var z := HexShape(num);
    hide Printed, Digits;
    ReadBehindX(Printed(num, 16), z, Unsigned(num));
  }

  /** The sign in front of an unsigned reading of the magnitude. */
  lemma ReadSigned(s: string, num: Int64)
    requires num != -TWO63
    requires var k := |Sign(num)|;
      k < |s| && s[..k] == Sign(num) && IsDigit(s[k], 10)
      && ReadUnsigned(s, k) == Some((Magnitude(num) as UInt64, |s|))
    ensures Read(s, 0) == (num, |s|)
  {
    assert SkipSpaces(s, 0) == 0;
    if num < 0 {
      assert s[0] == Sign(num)[0];
    }
  }

  /** One zero, or more for zero itself, in front of octal digits. */
  lemma OctalDigits(s: string, k: nat, z: nat, m: nat)
    requires m < TWO63 && 1 <= z && k + z <= |s| && s[k..k + z] == seq(z, _ => '0') && s[k + z..] == Digits(m, 8)
    ensures IsDigit(s[k], 10) && ReadUnsigned(s, k) == Some((m as UInt64, |s|))
  {
    forall j | k <= j < k + z ensures s[j] == '0' {
      assert s[j] == s[k..k + z][j - k];
    }
    LimitIsEnough(8);
    ReadRun(s, k, z, m, 8, Limit(8));
    DigitsValue(m, 8);
    if k + z < |s| {
      assert s[k + z] == Digits(m, 8)[0];
    }
  }

  lemma ReadOctal(num: Int64)
    requires num != -TWO63
    ensures Read(Printed(num, 8), 0) == (num, |Printed(num, 8)|)
  {
    var s := Printed(num, 8);
    OctalDigits(s, |Sign(num)|, if num == 0 then 2 else 1, Magnitude(num));
    ReadSigned(s, num);
  }

  lemma ReadDecimal(num: Int64, base: nat)
    requires num != -TWO63 && base != 16 && !(1 <= base <= 9)
    ensures Read(Printed(num, base), 0) == (num, |Printed(num, base)|)
  {
    var s := Printed(num, base);
    if num == 0 {
      LimitIsEnough(8);
      ReadRun(s, 0, 1, 0, 8, Limit(8));
    } else {
      DecimalDigits(s, |Sign(num)|, Magnitude(num));
    }
    ReadSigned(s, num);
  }

  lemma DecimalDigits(s: string, k: nat, m: nat)
    requires 0 < m < TWO63 && k <= |s| && s[k..] == Digits(m, 10)
    ensures k < |s| && IsDigit(s[k], 10) && ReadUnsigned(s, k) == Some((m as UInt64, |s|))
  {
    LimitIsEnough(10);
    ReadRun(s, k, 0, m, 10, Limit(10));
    DigitsValue(m, 10);
    DigitsLead(m, 10);
    assert s[k] == Digits(m, 10)[0];
  }

  /** Reading a printed number gives it back and leaves the cursor at the terminator: in bases 2 and
      16 for every number, in bases 8 and 10 for all but the smallest. */
  lemma ReadPrinted(num: Int64, base: nat)
    requires !(3 <= base <= 7) && base != 9
    requires num == -TWO63 ==> base == 1 || base == 2 || base == 16
    ensures Read(Printed(num, base), 0) == (num, |Printed(num, base)|)
  {
    if base == 1 || base == 2 {
      ReadBinary(num);
    } else if base == 16 {
      ReadHex(num);
    } else if base == 8 {
      ReadOctal(num);
    } else {
      ReadDecimal(num, base);
    }
  }

  // ---------------------------------------------------------------------------------------------
  // The other bases below 10: no prefix tells them from decimal

  /** The number that the digits of `n` stand for when they are read as decimal. */
  function AsDecimal(n: nat, base: Base): nat {
    if n == 0 then 0 else AsDecimal(n / base, base) * 10 + n % base
  }

  lemma {:induction false} AsDecimalDigits(n: nat, base: Base)
    requires base <= 10
    ensures Digits(AsDecimal(n, base), 10) == Digits(n, base)
    ensures AsDecimal(n, base) >= n && (base < 10 ==> (AsDecimal(n, base) == n <==> n < base))
  {
    if n > 0 {
      var q, r := n / base, n % base;
      DivMod(n, base);
      AsDecimalDigits(q, base);
      DecimalStep(n, base, q, r, AsDecimal(q, base));
      hide DigitChar;
      LastOfTen(AsDecimal(q, base), r);
    }
  }

  lemma LastOfTen(q: nat, r: nat)
    requires r < 10 && (q > 0 || r > 0)
    ensures Digits(q * 10 + r, 10) == Digits(q, 10) + [DigitChar(r)]
  {
    var v := q * 10 + r;
    assert v / 10 == q && v % 10 == r;
  }

  /** Ten times what the leading digits mean, and the last digit. */
  lemma DecimalStep(n: nat, base: Base, q: nat, r: nat, d: nat)
    requires n == q * base + r && r < base <= 10 && d >= q && (q == 0 ==> d == 0)
    ensures d * 10 + r >= n && (base < 10 ==> (d * 10 + r == n <==> q == 0))
  {
    ProductOf10(q, base);
  }

  lemma ProductOf10(q: nat, base: Base)
    requires base <= 10
    ensures q * base <= q * 10 && (base < 10 && q > 0 ==> q * base < q * 10)
  {
    assert q * 10 == q * base + q * (10 - base);
    if base < 10 && q > 0 {
      assert q * (10 - base) >= q;
    }
  }

  function WithSign(num: Int64, m: nat): int {
    if num < 0 then 0 - m else m
  }

  /** A number printed in base 3 to 7 or 9 reads back as the number its digits mean in decimal, for as long as
      that fits; this is the number itself if and only if it has one digit. */
  lemma ReadRareBases(num: Int64, base: nat)
    requires (3 <= base <= 7 || base == 9) && AsDecimal(Magnitude(num), base) < TWO63
    ensures var v := WithSign(num, AsDecimal(Magnitude(num), base));
      && Read(Printed(num, base), 0) == (v, |Printed(num, base)|)
      && (v == num <==> Magnitude(num) < base)
  {
    var v := WithSign(num, AsDecimal(Magnitude(num), base));
    AsDecimalDigits(Magnitude(num), base);
    assert Printed(num, base) == Printed(v, 10);
    ReadDecimal(v, 10);
  }
}
