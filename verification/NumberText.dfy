/** The loops that print a number into a buffer and read one from text. */
module NumberText {
  import opened Options
  import opened Numbers

  // ---------------------------------------------------------------------------------------------
  // Reading

  method SkipZeroDigits(s: string, from: nat) returns (i: nat)
    ensures i == SkipZeros(s, from)
  {
    i := from;
    while At(s, i) == '0'
      invariant SkipZeros(s, i) == SkipZeros(s, from)
      decreases |s| - i
    {
      i := i + 1;
    }
  }

  method ConsumeDigits(s: string, from: nat, base: Base, limit: int) returns (result: UInt64, i: nat)
    ensures (result, i) == Consume(s, from, base, 0, limit)
  {
    result, i := 0, from;
    while IsDigit(At(s, i), base) && result <= limit
      invariant Consume(s, i, base, result, limit) == Consume(s, from, base, 0, limit)
      decreases |s| - i
    {
      result := (result * base + DigitValue(At(s, i))) % TWO64;
      i := i + 1;
    }
  }

  /** The number behind the sign; `ok` is false when it has too many digits. */
  method AtolUnsigned(s: string, from: nat) returns (ok: bool, result: UInt64, i: nat)
    ensures ReadUnsigned(s, from) == if ok then Some((result, i)) else None
  {
    i := from;
    if HasPrefix(s, i, 'b', 'B') {
      i := SkipZeroDigits(s, AfterPrefix(s, i));
      result, i := ConsumeDigits(s, i, 2, TWO64);
      return true, result, i;
    }
    var hex := HasPrefix(s, i, 'x', 'X');
    var base := if hex then 16 else if At(s, i) == '0' then 8 else 10;
    i := SkipZeroDigits(s, if hex then AfterPrefix(s, i) else i);
    result, i := ConsumeDigits(s, i, base, Limit(base));
    if IsDigit(At(s, i), base) {
      return false, result, i;
    }
    if !hex && result >= TWO63 {
      result := TWO63 - 1;
    }
    ok := true;
  }

  /** Reads a number at `start`; `pos` is where the cursor ends up. */
  method Atol(s: string, start: nat) returns (value: Int64, pos: nat)
    ensures (value, pos) == Read(s, start)
  {
    var i := start;
    while IsSpace(At(s, i))
      invariant SkipSpaces(s, i) == SkipSpaces(s, start)
      decreases |s| - i
    {
      i := i + 1;
    }
    var invert := At(s, i) == '-';
    if invert || At(s, i) == '+' {
      i := i + 1;
    }
    var ok, result;
    ok, result, i := AtolUnsigned(s, i);
    if !ok {
      return 0, start;
    }
    if invert {
      result := (TWO64 - result) % TWO64;
    }
    return Signed(result), i;
  }

  // ---------------------------------------------------------------------------------------------
  // Printing: sign and digits

  ghost function Rev(s: string): string {
    if s == "" then "" else Rev(s[1..]) + [s[0]]
  }

  lemma {:induction false} RevSnoc(s: string, c: char)
    ensures Rev(s + [c]) == [c] + Rev(s)
  {
    if s != "" {
      assert (s + [c])[1..] == s[1..] + [c];
      RevSnoc(s[1..], c);
    }
  }

  /** Appends one character to the text in `dest`. */
  method Put(dest: array<char>, len: nat, c: char)
    requires len < dest.Length
    modifies dest
    ensures dest[..len + 1] == old(dest[..len]) + [c]
  {
    dest[len] := c;
  }

  lemma MulMono(a: nat, b: nat, x: nat, y: nat)
    requires a <= b && x <= y
    ensures a * x <= b * y
  {
    assert a * x <= b * x;
    assert b * x <= b * y;
  }

  lemma MulAssoc(a: nat, b: nat, c: nat)
    ensures a * b * c == a * (b * c)
  {
  }

  lemma {:induction false} PowGrows(a: nat, b: nat, k: nat)
    requires 1 <= a <= b
    ensures 1 <= Pow(a, k) <= Pow(b, k)
  {
    if k > 0 {
      PowGrows(a, b, k - 1);
      MulMono(a, b, Pow(a, k - 1), Pow(b, k - 1));
      MulMono(1, a, 1, Pow(a, k - 1));
    }
  }

  lemma {:induction false} PowSplit(base: nat, i: nat, k: nat)
    requires i <= k
    ensures Pow(base, i) * Pow(base, k - i) == Pow(base, k)
  {
    if i > 0 {
      PowSplit(base, i - 1, k - 1);
      MulAssoc(base, Pow(base, i - 1), Pow(base, k - i));
    }
  }

  lemma Pow3()
    ensures Pow(3, 40) >= TWO63
  {
    assert Pow(3, 8) == 6561;
    PowSplit(3, 8, 16);
    PowSplit(3, 16, 32);
    PowSplit(3, 8, 40);
  }

  /** The digit buffer has 48 places, and 40 are enough. */
  lemma BufferSuffices(m: nat, base: Base)
    requires 0 <= m < TWO63 && base >= 3
    ensures |Digits(m, base)| <= 40
  {
    Pow3();
    PowGrows(3, base, 40);
    DigitsLength(m, base, 40);
  }

  lemma LastDigit(n: nat, base: Base)
    requires n > 0
    ensures Digits(n, base) == Digits(n / base, base) + [DigitChar(n % base)]
  {
  }

  /** The digits of `m`, least significant first, in a buffer of 48 places. */
  method DigitBuffer(m: nat, base: Base) returns (buf: array<char>, l: nat)
    requires 0 <= m < TWO63 && 3 <= base <= 10
    ensures fresh(buf) && l <= 40 < buf.Length == 48 && Rev(buf[..l]) == Digits(m, base)
  {
    hide DigitChar;
    buf := new char[48](_ => NUL);
    l := 0;
    var num: nat := m;
    BufferSuffices(m, base);
    assert Digits(0, base) == "";
    hide Digits;
    while num > 0
      invariant num < TWO63 && l <= 40 && Digits(m, base) == Digits(num, base) + Rev(buf[..l])
      invariant |Rev(buf[..l])| == l
      decreases num
    {
      DivMod(num, base);
      LastDigit(num, base);
      RevSnoc(buf[..l], DigitChar(num % base));
      Put(buf, l, DigitChar(num % base));
      l := l + 1;
      num := num / base;
    }
  }

  /** Copies the buffer backwards behind the text in `dest`. */
  method CopyBack(dest: array<char>, from: nat, buf: array<char>, count: nat) returns (len: nat)
    requires dest != buf && count <= buf.Length && from + count <= dest.Length
    modifies dest
    ensures len == from + count && dest[..len] == old(dest[..from]) + Rev(buf[..count])
  {
    len := from;
    var l: nat := count;
    while l > 0
      invariant 0 <= l <= count && len == from + count - l
      invariant dest[..len] + Rev(buf[..l]) == old(dest[..from]) + Rev(buf[..count])
    {
      l := l - 1;
      assert buf[..l + 1] == buf[..l] + [buf[l]];
      RevSnoc(buf[..l], buf[l]);
      Put(dest, len, buf[l]);
      len := len + 1;
    }
  }

  method PrintSigned(dest: array<char>, num: Int64, base: Base) returns (len: nat)
    requires dest.Length >= 67 && 3 <= base <= 10 && num != 0 && num != -TWO63
    modifies dest
    ensures len <= 66 && dest[..len] == Sign(num) + (if base == 8 then "0" else "") + Digits(Magnitude(num), base)
  {
    len := 0;
    var m := num;
    if num < 0 {
      Put(dest, len, '-');
      len := len + 1;
      m := 0 - num;
    }
    if base == 8 {
      Put(dest, len, '0');
      len := len + 1;
    }
    ghost var prefix := dest[..len];
    assert prefix == Sign(num) + (if base == 8 then "0" else "");
    var buf, l := DigitBuffer(m, base);
    len := CopyBack(dest, len, buf, l);
  }

  // ---------------------------------------------------------------------------------------------
  // Printing: bits and bytes from the top of a 64 bit word

  lemma DivUnique(x: nat, m: nat, q: nat, r: nat)
    requires x == q * m + r && r < m
    ensures x / m == q && x % m == r
  {
    var q', r' := x / m, x % m;
    assert x == q' * m + r';
    if q' < q {
      MulMono(q' + 1, q, m, m);
    } else if q < q' {
      MulMono(q + 1, q', m, m);
    }
  }

  lemma Recompose(t: nat, c: nat, b: nat, p: nat, r: nat)
    requires b < c && r < p
    ensures c * p >= 1
    ensures ((t * c + b) * p + r) / (c * p) == t && ((t * c + b) * p + r) % (c * p) == b * p + r
  {
    Weigh(t, c, b, p);
    MulMono(1, c, 1, p);
    MulMono(b + 1, c, p, p);
    DivUnique((t * c + b) * p + r, c * p, t, b * p + r);
  }

  lemma DivModNat(u: nat, m: nat)
    requires m >= 1
    ensures u == (u / m) * m + u % m && u % m < m
  {
  }

  /** A number is its top part, one chunk and the rest. */
  lemma SplitChunk(u: nat, c: nat, p: nat)
    requires c >= 1 && p >= 1
    ensures c * p >= 1 && u / (c * p) == u / p / c && u % (c * p) == (u / p % c) * p + u % p
  {
    DivModNat(u, p);
    DivModNat(u / p, c);
    Recompose(u / p / c, c, u / p % c, p, u % p);
  }

  lemma Weigh(t: nat, c: nat, b: nat, p: nat)
    ensures (t * c + b) * p == t * (c * p) + b * p
    ensures (b + 1) * p == b * p + p
  {
    MulAssoc(t, c, p);
    assert (t * c + b) * p == t * c * p + b * p;
  }

  lemma TopChunk(b: nat, r: nat, p: nat, low: nat)
    requires r < p && low >= 1
    ensures p * low >= 1 && ((b * p + r) * low) / (p * low) == b
    ensures (b * p + r) * low == b * (p * low) + r * low
  {
    MulMono(1, p, 1, low);
    Weigh(b, p, r, low);
    Below(r, p, low);
    DivUnique((b * p + r) * low, p * low, b, r * low);
  }

  lemma ShiftOut(b: nat, r: nat, p: nat, low: nat, c: nat)
    requires r < p && low >= 1 && c >= 1 && p * low * c == TWO64
    ensures ((b * p + r) * low * c) % TWO64 == r * (low * c)
  {
    TopChunk(b, r, p, low);
    Weigh(b, p * low, r * low, c);
    MulAssoc(r, low, c);
    MulAssoc(p, low, c);
    MulMono(1, low, 1, c);
    Below(r, p, low * c);
    DivUnique((b * p + r) * low * c, TWO64, b, r * (low * c));
  }

  /** A 64 bit word that holds what is left of `u` below weight `c * p`, moved up by `low`: its top
      chunk (a bit or a byte) is the next one of `u`, and the shift moves the rest up. */
  lemma ShiftChunk(u: nat, c: nat, p: nat, low: nat)
    requires c >= 2 && p >= 1 && low >= 1 && p * low * c == TWO64
    ensures c * p >= 1 && p * low >= 1
    ensures ((u % (c * p)) * low) / (p * low) == u / p % c
    ensures ((u % (c * p)) * low * c) % TWO64 == (u % p) * (low * c)
    ensures u / p == c * (u / (c * p)) + u / p % c
  {
    SplitChunk(u, c, p);
    TopChunk(u / p % c, u % p, p, low);
    ShiftOut(u / p % c, u % p, p, low, c);
  }

  lemma Below(r: nat, p: nat, m: nat)
    requires r < p && m >= 1
    ensures r * m < p * m
  {
    MulMono(r + 1, p, m, m);
    assert (r + 1) * m == r * m + m;
  }

  /** `u` shifted left by `i` of `n` chunks in a 64 bit word, and the part shifted out of it. */
  ghost function Word(u: nat, c: nat, n: nat, i: nat): nat
    requires c >= 2 && i <= n
  {
    PowGrows(1, c, n - i);
    (u % Pow(c, n - i)) * Pow(c, i)
  }

  ghost function Head(u: nat, c: nat, n: nat, i: nat): nat
    requires c >= 2 && i <= n
  {
    PowGrows(1, c, n - i);
    u / Pow(c, n - i)
  }

  lemma WordStep(u: nat, c: nat, n: nat, i: nat)
    requires c >= 2 && i < n && Pow(c, n) == TWO64
    ensures TWO64 / c >= 1
    ensures Word(u, c, n, i) / (TWO64 / c) == Head(u, c, n, i + 1) % c
    ensures (Word(u, c, n, i) * c) % TWO64 == Word(u, c, n, i + 1)
    ensures Head(u, c, n, i + 1) == c * Head(u, c, n, i) + Head(u, c, n, i + 1) % c
  {
    var p, low := Pow(c, n - i - 1), Pow(c, i);
    PowGrows(1, c, n - i - 1);
    PowGrows(1, c, i);
    PowSplit(c, i, n);
    assert Pow(c, n - i) == c * p;
    Reorder(c, p, low);
    DivUnique(TWO64, c, p * low, 0);
    ShiftChunk(u, c, p, low);
    assert Pow(c, i + 1) == c * low;
  }

  lemma Reorder(c: nat, p: nat, low: nat)
    ensures low * (c * p) == p * low * c && low * c == c * low
  {
    MulAssoc(p, low, c);
    MulAssoc(low, c, p);
  }

  lemma WordEnds(u: nat, c: nat, n: nat)
    requires c >= 2 && u < TWO64 && Pow(c, n) == TWO64
    ensures Word(u, c, n, 0) == u && Head(u, c, n, 0) == 0 && Head(u, c, n, n) == u
  {
    DivUnique(u, TWO64, 0, u);
    DivUnique(u, 1, u, 0);
  }

  lemma Pow64()
    ensures Pow(2, 64) == TWO64 && Pow(2, 63) == TWO63 && Pow(256, 8) == TWO64 && Pow(16, 16) == TWO64
  {
    assert Pow(2, 8) == 256;
    PowSplit(2, 8, 16);
    PowSplit(2, 16, 32);
    PowSplit(2, 32, 64);
    assert Pow(256, 8) == TWO64;
    assert Pow(16, 8) == 0x1_0000_0000;
    PowSplit(16, 8, 16);
  }

  lemma DigitsSnoc(q: nat, d: nat, base: Base)
    requires d < base && (q > 0 || d > 0)
    ensures Digits(base * q + d, base) == Digits(q, base) + [DigitChar(d)]
  {
    DivUnique(base * q + d, base, q, d);
    MulMono(1, base, q, q);
  }

  /** Shifts out the leading zero chunks (bits or bytes); `top` is the weight of the top chunk. */
  method SkipLeading(u: UInt64, c: nat, count: nat, top: nat) returns (n: nat, i: nat)
    requires u != 0 && c >= 2 && Pow(c, count) == TWO64 && top == TWO64 / c >= 1
    ensures i < count && n == Word(u, c, count, i) < TWO64 && n >= top && Head(u, c, count, i) == 0
    ensures i > 0 <==> u < top
    ensures i == 0 ==> n == u
  {
    WordEnds(u, c, count);
    n, i := u, 0;
    while i < count && n < top
      invariant i <= count && n == Word(u, c, count, i) < TWO64 && Head(u, c, count, i) == 0
      invariant i > 0 ==> u < top
      invariant i == 0 ==> n == u
    {
      WordStep(u, c, count, i);
      DivUnique(n, top, 0, n);
      n := (n * c) % TWO64;
      i := i + 1;
    }
  }

  /** Prints the 64 bits of a number, without the leading zeros but with one if the number is not
      negative. */
  method PrintBinary(dest: array<char>, num: Int64) returns (len: nat)
    requires dest.Length >= 67 && num != 0
    modifies dest
    ensures len <= 66 && dest[..len] == Printed(num, 2)
  {
    Pow64();
    Put(dest, 0, '0');
    Put(dest, 1, 'b');
    len := 2;
    var n, i := SkipLeading(Unsigned(num), 2, 64, TWO63);
    if i > 0 {
      Put(dest, len, '0');
      len := len + 1;
    }
    len := PrintBits(dest, len, n, i, Unsigned(num));
  }

  lemma TopBit(word: nat, head: nat, next: nat)
    requires word < TWO64 && word / TWO63 == next % 2 && next == 2 * head + next % 2
    requires head > 0 || word >= TWO63
    ensures next > 0 && Digits(next, 2) == Digits(head, 2) + [if word >= TWO63 then '1' else '0']
  {
    var bit := if word >= TWO63 then 1 else 0;
    DivUnique(word, TWO63, bit, word - bit * TWO63);
    DigitsSnoc(head, bit, 2);
  }

  /** The top bit of the word is the next digit. */
  lemma NextBit(u: UInt64, i: nat, word: nat)
    requires i < 64 && word == Word(u, 2, 64, i) < TWO64 && (Head(u, 2, 64, i) > 0 || word >= TWO63)
    ensures Digits(Head(u, 2, 64, i + 1), 2) == Digits(Head(u, 2, 64, i), 2) + [if word >= TWO63 then '1' else '0']
    ensures Head(u, 2, 64, i + 1) > 0 && (word * 2) % TWO64 == Word(u, 2, 64, i + 1)
  {
    hide Head, Word;
    Pow64();
    WordStep(u, 2, 64, i);
    TopBit(word, Head(u, 2, 64, i), Head(u, 2, 64, i + 1));
  }

  method PrintBits(dest: array<char>, from: nat, word: nat, skipped: nat, ghost u: UInt64) returns (len: nat)
    requires skipped < 64 && TWO64 > word == Word(u, 2, 64, skipped) >= TWO63 && Head(u, 2, 64, skipped) == 0
    requires from + 64 - skipped <= dest.Length
    modifies dest
    ensures len == from + 64 - skipped && dest[..len] == old(dest[..from]) + Digits(u, 2)
  {
    hide Head, Word;
    Pow64();
    WordEnds(u, 2, 64);
    var n: nat, i: nat := word, skipped;
    len := from;
    while i < 64
      invariant skipped <= i <= 64 && n == Word(u, 2, 64, i) < TWO64 && (Head(u, 2, 64, i) > 0 || n >= TWO63)
      invariant len == from + i - skipped
      invariant dest[..len] == old(dest[..from]) + Digits(Head(u, 2, 64, i), 2)
    {
      NextBit(u, i, n);
      Put(dest, len, if n >= TWO63 then '1' else '0');
      len := len + 1;
      n := (n * 2) % TWO64;
      i := i + 1;
    }
  }

  const TOP_BYTE := 0x100_0000_0000_0000  // the weight of the top byte of a 64 bit word

  lemma EvenHexSnoc(q: nat, h: nat, l: nat)
    requires h < 16 && l < 16 && (q > 0 || h > 0 || l > 0)
    ensures EvenHex(16 * (16 * q + h) + l) == EvenHex(q) + [DigitChar(h), DigitChar(l)]
  {
    assert DigitChar(0) == '0';
    hide DigitChar;
    var d, mid := Digits(q, 16), 16 * q + h;
    DigitsSnoc(mid, l, 16);
    if mid > 0 {
      DigitsSnoc(q, h, 16);
      PadPair(d, DigitChar(h), DigitChar(l));
    } else {
      assert Digits(l, 16) == [DigitChar(l)];
    }
  }

  lemma PadPair(d: string, a: char, b: char)
    ensures Pad(d + [a] + [b]) == Pad(d) + [a, b]
  {
    assert |d + [a] + [b]| % 2 == |d| % 2;
    assert "0" + (d + [a] + [b]) == ("0" + d) + [a, b];
  }

  /** The top byte of a word as its two top half bytes. */
  lemma Nibbles(word: nat, h: nat, l: nat, r: nat)
    requires word == (16 * h + l) * TOP_BYTE + r && l < 16 && r < TOP_BYTE
    ensures word / TOP_BYTE == 16 * h + l && word / TOP_NIBBLE == h && word / TOP_BYTE % 16 == l
  {
    DivUnique(word, TOP_BYTE, 16 * h + l, r);
    DivUnique(word, TOP_NIBBLE, h, l * TOP_BYTE + r);
    DivUnique(16 * h + l, 16, h, l);
  }

  const TOP_NIBBLE := 0x1000_0000_0000_0000

  /** The top byte of the word gives the next two digits. */
  lemma TopByte(word: nat, head: nat, next: nat)
    requires word < TWO64 && word / TOP_BYTE == next % 256 && next == 256 * head + next % 256
    requires head > 0 || word >= TOP_BYTE
    ensures next > 0 && word / TOP_NIBBLE < 16
    ensures EvenHex(next) == EvenHex(head) + [DigitChar(word / TOP_NIBBLE), DigitChar(word / TOP_BYTE % 16)]
  {
    var b := next % 256;
    DivModNat(word, TOP_BYTE);
    DivModNat(b, 16);
    Nibbles(word, b / 16, b % 16, word % TOP_BYTE);
    EvenHexSnoc(head, b / 16, b % 16);
  }

  lemma NextByte(u: UInt64, i: nat, word: nat)
    requires i < 8 && word == Word(u, 256, 8, i) < TWO64 && (Head(u, 256, 8, i) > 0 || word >= TOP_BYTE)
    ensures word / TOP_NIBBLE < 16
    ensures EvenHex(Head(u, 256, 8, i + 1)) ==
      EvenHex(Head(u, 256, 8, i)) + [DigitChar(word / TOP_NIBBLE), DigitChar(word / TOP_BYTE % 16)]
    ensures Head(u, 256, 8, i + 1) > 0 && (word * 256) % TWO64 == Word(u, 256, 8, i + 1) < TWO64
  {
    Pow64();
    WordStep(u, 256, 8, i);
    TopByte(word, Head(u, 256, 8, i), Head(u, 256, 8, i + 1));
  }

  /** The first digit is that of the first byte that is not zero. */
  lemma {:induction false} FirstDigit(u: UInt64, i: nat, word: nat, k: nat)
    requires i < k <= 8 && TWO64 > word == Word(u, 256, 8, i) >= TOP_BYTE && Head(u, 256, 8, i) == 0
    ensures Head(u, 256, 8, k) > 0 && Word(u, 256, 8, k) < TWO64
    ensures EvenHex(Head(u, 256, 8, k)) != "" && EvenHex(Head(u, 256, 8, k))[0] == DigitChar(word / TOP_NIBBLE)
    decreases k
  {
    if k == i + 1 {
      NextByte(u, i, word);
    } else {
      FirstDigit(u, i, word, k - 1);
      NextByte(u, k - 1, Word(u, 256, 8, k - 1));
    }
  }

  /** Prints the bytes of a number from the first that is not zero; two zeros go in front if that byte
      would make the number look negative. */
  method PrintHex(dest: array<char>, num: Int64) returns (len: nat)
    requires dest.Length >= 67 && num != 0
    modifies dest
    ensures len <= 66 && dest[..len] == Printed(num, 16)
  {
    hide DigitChar, Digits, Head, Word;
    Pow64();
    Put(dest, 0, '0');
    Put(dest, 1, 'x');
    len := 2;
    var n, i := SkipLeading(Unsigned(num), 256, 8, TOP_BYTE);
    WordEnds(Unsigned(num), 256, 8);
    FirstDigit(Unsigned(num), i, n, 8);
    NibbleGuard(n);
    if i > 0 && n >= TWO63 {
      Put(dest, len, '0');
      Put(dest, len + 1, '0');
      len := len + 2;
    }
    len := PrintBytes(dest, len, n, i, Unsigned(num));
  }

  lemma NibbleGuard(n: nat)
    requires n < TWO64
    ensures n / TOP_NIBBLE < 16 && (DigitChar(n / TOP_NIBBLE) >= '8' <==> n >= TWO63)
  {
    DivModNat(n, TOP_NIBBLE);
  }

  method PutPair(dest: array<char>, len: nat, c: char, d: char)
    requires len + 1 < dest.Length
    modifies dest
    ensures dest[..len + 2] == old(dest[..len]) + [c, d]
  {
    dest[len] := c;
    dest[len + 1] := d;
  }

  method PrintBytes(dest: array<char>, from: nat, word: nat, skipped: nat, ghost u: UInt64) returns (len: nat)
    requires skipped < 8 && TWO64 > word == Word(u, 256, 8, skipped) >= TOP_BYTE && Head(u, 256, 8, skipped) == 0
    requires from + 16 <= dest.Length
    modifies dest
    ensures from <= len <= from + 16 && dest[..len] == old(dest[..from]) + EvenHex(u)
  {
    hide DigitChar, Head, Word;
    Pow64();
    WordEnds(u, 256, 8);
    var n: nat, i: nat := word, skipped;
    len := from;
    while i < 8
      invariant skipped <= i <= 8 && n == Word(u, 256, 8, i) < TWO64 && (Head(u, 256, 8, i) > 0 || n >= TOP_BYTE)
      invariant len == from + 2 * (i - skipped)
      invariant dest[..len] == old(dest[..from]) + EvenHex(Head(u, 256, 8, i))
    {
      NextByte(u, i, n);
      PutPair(dest, len, DigitChar(n / TOP_NIBBLE), DigitChar(n / TOP_BYTE % 16));
      len := len + 2;
      n := (n * 256) % TWO64;
      i := i + 1;
    }
  }

  // ---------------------------------------------------------------------------------------------

  method PrintZero(dest: array<char>, base: nat) returns (len: nat)
    requires dest.Length >= 67
    modifies dest
    ensures len <= 66 && dest[..len] == Printed(0, base)
  {
    len := 0;
    if base == 1 || base == 2 {
      Put(dest, 0, '0');
      Put(dest, 1, 'b');
      len := 2;
    } else if base == 8 {
      Put(dest, 0, '0');
      len := 1;
    } else if base == 16 {
      Put(dest, 0, '0');
      Put(dest, 1, 'x');
      Put(dest, 2, '0');
      len := 3;
    }
    Put(dest, len, '0');
    len := len + 1;
  }

  /** Prints `num` and a terminating NUL; the text has at most 66 characters. In the signed bases the
      smallest number is left out: its negation overflows. */
  method Ltoa(dest: array<char>, num: Int64, base: nat) returns (len: nat)
    requires dest.Length >= 67
    requires num == -TWO63 ==> base == 1 || base == 2 || base == 16
    modifies dest
    ensures len <= 66 && dest[..len] == Printed(num, base) && dest[len] == NUL
  {
    hide Digits, EvenHex, BinaryGuard, HexGuard, Sign;
    if num == 0 {
      len := PrintZero(dest, base);
    } else if base == 1 || base == 2 {
      len := PrintBinary(dest, num);
    } else if base == 16 {
      len := PrintHex(dest, num);
    } else {
      len := PrintSigned(dest, num, if 3 <= base <= 9 then base else 10);
    }
    dest[len] := NUL;
  }

  /** Whatever is printed can be read back from the buffer. */
  method PrintAndRead(dest: array<char>, num: Int64, base: nat) returns (value: Int64, pos: nat, len: nat)
    requires dest.Length >= 67 && !(3 <= base <= 7) && base != 9
    requires num == -TWO63 ==> base == 1 || base == 2 || base == 16
    modifies dest
    ensures value == num && pos == len <= 66 && dest[len] == NUL
  {
    len := Ltoa(dest, num, base);
    ReadPrinted(num, base);
    value, pos := Atol(dest[..len], 0);
  }
}
