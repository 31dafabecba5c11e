/** What the patterns that users write match: plain text, escaped text, `?`, lists and ranges of bytes. */
module GlobForms {
  import opened Glob

  /** No byte of it means anything but itself. */
  predicate Literal(p: seq<Byte>) {
    forall k | 0 <= k < |p| :: p[k] != STAR && p[k] != ANY && p[k] != OPEN && p[k] != ESCAPE
  }

  lemma {:induction false} LiteralFrom(p: seq<Byte>, i: nat, s: seq<Byte>, j: nat)
    requires Literal(p) && i <= |p| && j <= |s|
    ensures WellFormed(p, i) && (Matches(p, i, s, j) <==> p[i..] == s[j..])
    decreases |p| - i
  {
    if i < |p| {
      assert p[i..] == [p[i]] + p[i + 1..];
      LiteralFrom(p, i + 1, s, if j < |s| then j + 1 else j);
      if j < |s| {
        assert s[j..] == [s[j]] + s[j + 1..];
      }
    }
  }

  /** Plain text matches itself only. */
  lemma LiteralIff(p: seq<Byte>, s: seq<Byte>)
    requires Literal(p)
    ensures WellFormed(p, 0) && (Matches(p, 0, s, 0) <==> p == s)
  {
    LiteralFrom(p, 0, s, 0);
    assert p[0..] == p && s[0..] == s;
  }

  function Escaped(text: seq<Byte>): (p: seq<Byte>)
    ensures |p| == 2 * |text| && forall k | 0 <= k < |text| :: p[2 * k] == ESCAPE && p[2 * k + 1] == text[k]
  {
    if text == [] then [] else Escaped(text[..|text| - 1]) + [ESCAPE, text[|text| - 1]]
  }

  lemma {:induction false} EscapedFrom(text: seq<Byte>, n: nat, s: seq<Byte>, j: nat)
    requires n <= |text| && j <= |s|
    ensures WellFormed(Escaped(text), 2 * n) && (Matches(Escaped(text), 2 * n, s, j) <==> text[n..] == s[j..])
    decreases |text| - n
  {
    if n < |text| {
      var p, i := Escaped(text), 2 * n;
      assert p[i] == ESCAPE && p[i + 1] == text[n] && TokenEnd(p, i) == 2 * (n + 1);
      assert text[n..] == [text[n]] + text[n + 1..];
      EscapedFrom(text, n + 1, s, if j < |s| then j + 1 else j);
      if j < |s| {
        assert s[j..] == [s[j]] + s[j + 1..];
      }
    }
  }

  /** With a `\` before each of its bytes any text at all matches itself only. */
  lemma EscapedIff(text: seq<Byte>, s: seq<Byte>)
    ensures WellFormed(Escaped(text), 0) && (Matches(Escaped(text), 0, s, 0) <==> s == text)
  {
    EscapedFrom(text, 0, s, 0);
    assert text[0..] == text && s[0..] == s;
  }

  lemma {:induction false} QuestionsFrom(p: seq<Byte>, i: nat, s: seq<Byte>, j: nat)
    requires i <= |p| && j <= |s| && forall k | 0 <= k < |p| :: p[k] == ANY
    ensures WellFormed(p, i) && (Matches(p, i, s, j) <==> |p| - i == |s| - j)
    decreases |p| - i
  {
    if i < |p| {
      QuestionsFrom(p, i + 1, s, if j < |s| then j + 1 else j);
    }
  }

  /** Each `?` stands for exactly one byte, whichever it is. */
  lemma QuestionsIff(p: seq<Byte>, s: seq<Byte>)
    requires forall k | 0 <= k < |p| :: p[k] == ANY
    ensures WellFormed(p, 0) && (Matches(p, 0, s, 0) <==> |s| == |p|)
  {
    QuestionsFrom(p, 0, s, 0);
  }

  /** The bytes of a class from `i` to its `]` are listed one by one; the first of them may be a `]` too. */
  predicate Listed(p: seq<Byte>, i: nat, close: nat) {
    && i < close < |p| && p[close] == CLOSE
    && (forall k | i < k < close :: p[k] != CLOSE) && forall k | i <= k < close :: p[k] != DASH
  }

  lemma {:induction false} ListedAre(p: seq<Byte>, i: nat, close: nat, c: Byte)
    requires Listed(p, i, close)
    ensures ClassClose(p, i) == close && (InSpans(p, i, c) <==> exists k | i <= k < close :: p[k] == c)
    decreases close - i
  {
    assert At(p, i + 1) == p[i + 1] != DASH;
    assert SpanAt(p, i) == Span(p[i], p[i], i + 1);
    if i + 1 < close {
      ListedAre(p, i + 1, close, c);
    }
  }

  /** A list of bytes stands for any one of them; behind a `^`, for any byte that is not among them. */
  lemma ListIff(p: seq<Byte>, i: nat, close: nat, c: Byte)
    requires i < |p| && p[i] == OPEN && Listed(p, FirstSpan(p, i), close)
    ensures TokenEnd(p, i) == close + 1
    ensures Accepts(p, i, c) <==> (exists k | FirstSpan(p, i) <= k < close :: p[k] == c) != (p[i + 1] == CARET)
  {
    ListedAre(p, FirstSpan(p, i), close, c);
  }

  /** A range stands for any byte between its ends, whichever of them is larger; behind a `^`, for any other byte. */
  lemma RangeIff(p: seq<Byte>, i: nat, c: Byte)
    requires i < |p| && p[i] == OPEN && FirstSpan(p, i) + 3 < |p|
    requires p[FirstSpan(p, i) + 1] == DASH && p[FirstSpan(p, i) + 2] != CLOSE && p[FirstSpan(p, i) + 3] == CLOSE
    ensures TokenEnd(p, i) == FirstSpan(p, i) + 4
    ensures var a, b := p[FirstSpan(p, i)], p[FirstSpan(p, i) + 2];
      Accepts(p, i, c) <==> (a <= c <= b || b <= c <= a) != (p[i + 1] == CARET)
  {
    var f := FirstSpan(p, i);
    assert At(p, f + 1) == p[f + 1] && At(p, f + 2) == p[f + 2];
    assert SpanAt(p, f).next == f + 3;
  }

  /** A class matches the names of one byte that it accepts. */
  lemma ClassMatches(p: seq<Byte>, c: Byte)
    requires p != [] && p[0] == OPEN && TokenEnd(p, 0) == |p|
    ensures WellFormed(p, 0) && (Matches(p, 0, [c], 0) <==> Accepts(p, 0, c))
  {
    assert WellFormed(p, |p|);
    assert Matches(p, |p|, [c], 1);
  }
}
