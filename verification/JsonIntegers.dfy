/** The library's reader of integers is one that whole documents can be read with. */
module JsonIntegers {
  import opened Options
  import opened JsonParse
  import opened JsonDocuments
  import N = Numbers
  import F = NumberForms

  /** Bytes as the characters they stand for. */
  function Chars(b: Bytes): (s: string)
    ensures |s| == |b| && forall k | 0 <= k < |b| :: s[k] == b[k] as char
  {
    seq(|b|, k requires 0 <= k < |b| => b[k] as char)
  }

  /** Where `fio_atol` stops when it is started at `pos`. */
  function IntegerEnd(buf: Bytes, pos: nat): nat {
    if pos <= |buf| then pos + N.Read(Chars(buf[pos..]), 0).1 else pos
  }

  lemma CharOf(b: bv8)
    ensures 48 <= b <= 57 ==> '0' <= b as char <= '9'
    ensures b == 45 <==> b as char == '-'
    ensures b == 48 <==> b as char == '0'
    ensures IsSeparator(b) || b == 93 || b == 125 ==> N.DigitValue(b as char) == -1
    ensures IsSeparator(b) || b == 93 || b == 125 ==> b as char !in "bBxX"
  {
  }

  lemma OneMoreDigit(acc: nat, d: nat, p: nat)
    requires d <= 9
    ensures (acc * 10 + d + 1) * p <= (acc + 1) * (10 * p)
  {
    assert (acc * 10 + d + 1) * p <= (acc * 10 + 10) * p;
  }

  lemma {:induction false} ValueBound(s: string, acc: nat)
    requires N.AllDigits(s, 10)
    ensures N.Value(s, 10, acc) < (acc + 1) * N.Pow(10, |s|)
    decreases |s|
  {
    if s != "" {
      var d := N.DigitValue(s[0]);
      ValueBound(s[1..], acc * 10 + d);
      OneMoreDigit(acc, d, N.Pow(10, |s| - 1));
    }
  }

  lemma PowersOfTen(k: nat)
    requires k <= 18
    ensures N.Pow(10, k) < N.TWO63
  {
    assert N.Pow(10, 6) == 1_000_000;
    assert N.Pow(10, 12) == 1_000_000_000_000 by { assert N.Pow(10, 9) == 1000 * N.Pow(10, 6); }
    assert N.Pow(10, 18) == 1_000_000_000_000_000_000 by { assert N.Pow(10, 15) == 1000 * N.Pow(10, 12); }
    F.PowGrows(10, k, 18);
  }

  /** The text as the parts of a number: a 0 alone is marked as octal. */
  function FormOf(text: Bytes, rest: Bytes): F.Form
    requires IsInteger(text)
  {
    var sign := if text[0] == 45 then "-" else "";
    if DigitsOf(text)[0] == 48 then F.Form("", sign, "0", "", "", Chars(rest))
    else F.Form("", sign, "", "", Chars(DigitsOf(text)), Chars(rest))
  }

  function BaseOf(text: Bytes): N.Base
    requires IsInteger(text)
  {
    if DigitsOf(text)[0] == 48 then 8 else 10
  }

  lemma CharsConcat(a: Bytes, b: Bytes)
    ensures Chars(a + b) == Chars(a) + Chars(b)
  {
  }

  lemma SignAndDigits(text: Bytes)
    requires IsInteger(text)
    ensures Chars(text) == (if text[0] == 45 then "-" else "") + Chars(DigitsOf(text))
    ensures DigitsOf(text)[0] == 48 ==> Chars(DigitsOf(text)) == "0"
  {
    CharOf(text[0]);
    CharOf(DigitsOf(text)[0]);
    if text[0] == 45 {
      assert text == [text[0]] + text[1..];
    }
  }

  lemma FormIsText(text: Bytes, rest: Bytes)
    requires IsInteger(text)
    ensures F.Text(FormOf(text, rest)) == Chars(text + rest)
  {
    SignAndDigits(text);
    CharsConcat(text, rest);
    hide Chars, DigitsOf;
  }

  lemma CharsAreDigits(digits: Bytes)
    requires forall k | 0 <= k < |digits| :: 48 <= digits[k] <= 57
    ensures N.AllDigits(Chars(digits), 10) && (digits != [] && digits[0] != 48 ==> Chars(digits)[0] != '0')
  {
    forall k | 0 <= k < |digits| ensures '0' <= digits[k] as char <= '9' && (digits[k] == 48 <==> digits[k] as char == '0') {
      CharOf(digits[k]);
    }
  }

  lemma RestFollows(rest: Bytes)
    requires Over(rest, 0)
    ensures rest != [] ==> N.DigitValue(Chars(rest)[0]) == -1 && Chars(rest)[0] !in "bBxX"
  {
    if rest != [] {
      CharOf(rest[0]);
    }
  }

  lemma FormIsProper(text: Bytes, rest: Bytes)
    requires IsInteger(text) && Over(rest, 0)
    ensures F.Proper(FormOf(text, rest), BaseOf(text))
    ensures N.Value(FormOf(text, rest).digits, BaseOf(text), 0) < N.TWO63
  {
    hide DigitsOf, Over, N.Pow;
    var digits := DigitsOf(text);
    CharsAreDigits(digits);
    RestFollows(rest);
    if digits[0] != 48 {
      ValueBound(Chars(digits), 0);
      PowersOfTen(|digits|);
    }
  }

  lemma ReadsText(text: Bytes, rest: Bytes)
    requires IsInteger(text) && Over(rest, 0)
    ensures N.Read(Chars(text + rest), 0).1 == |text|
  {
    FormIsText(text, rest);
    FormIsProper(text, rest);
    F.ReadsForm(FormOf(text, rest), BaseOf(text));
  }

  /** With `fio_atol` as the reader of integers the documents are read that `JsonDocuments` speaks of. */
  lemma AtolReadsIntegers(env: Env)
    requires forall buf: Bytes, pos: nat :: env.intEnd(buf, pos) == IntegerEnd(buf, pos)
    ensures ReadsIntegers(env)
  {
    forall buf: Bytes, pos: nat, text: Bytes | IsInteger(text) && HasWord(buf, pos, text) && Over(buf, pos + |text|)
      ensures env.intEnd(buf, pos) == pos + |text|
    {
      var rest := buf[pos + |text|..];
      assert buf[pos..] == text + rest;
      assert rest != [] ==> rest[0] == buf[pos + |text|];
      ReadsText(text, rest);
    }
  }
}
