/** Glob matching of channel names: a loop that remembers only the last `*` it met, against
    exhaustive backtracking. */
module Glob {

  type Byte = b: int | 0 <= b < 256

  const STAR: Byte := 42       // '*'
  const ANY: Byte := 63        // '?'
  const OPEN: Byte := 91       // '['
  const CLOSE: Byte := 93      // ']'
  const ESCAPE: Byte := 92     // '\'
  const CARET: Byte := 94      // '^'
  const DASH: Byte := 45       // '-'
  const NUL: Byte := 0

  /** A pattern or a name in memory: its bytes, with a NUL byte behind them. */
  function At(s: seq<Byte>, i: nat): Byte {
    if i < |s| then s[i] else NUL
  }

  // ---------------------------------------------------------------------------------------------
  // Character classes

  /** One span of a class: the span that starts at `i` ends before `next` and covers `lo..hi`. */
  datatype Span = Span(lo: Byte, hi: Byte, next: nat)

  function SpanAt(p: seq<Byte>, i: nat): Span
    requires i < |p|
  {
    if At(p, i + 1) == DASH && At(p, i + 2) != CLOSE then
      var b := At(p, i + 2);
      if p[i] > b then Span(b, p[i], i + 3) else Span(p[i], b, i + 3)
    else
      Span(p[i], p[i], i + 1)
  }

  /** The position of the `]` that closes the class whose next span starts at `i`, if there is one.
      The first span may start with `]`, so the test comes after each span. */
  function ClassClose(p: seq<Byte>, i: nat): (close: int)
    ensures close == -1 || (i < close < |p| && p[close] == CLOSE)
    decreases |p| - i
  {
    if i >= |p| then -1 else
    var next := SpanAt(p, i).next;
    if next >= |p| then -1
    else if p[next] == CLOSE then next
    else ClassClose(p, next)
  }

  /** Some span of the class covers `c`. */
  predicate InSpans(p: seq<Byte>, i: nat, c: Byte)
    requires ClassClose(p, i) != -1
    decreases |p| - i
  {
    var s := SpanAt(p, i);
    s.lo <= c <= s.hi || (p[s.next] != CLOSE && InSpans(p, s.next, c))
  }

  // ---------------------------------------------------------------------------------------------
  // Patterns as tokens

  predicate Inverted(p: seq<Byte>, i: nat) {
    At(p, i + 1) == CARET
  }

  function FirstSpan(p: seq<Byte>, i: nat): nat {
    i + 1 + if Inverted(p, i) then 1 else 0
  }

  /** Where the token at `i` ends; a class that is never closed, or a trailing `\`, has no end. */
  function TokenEnd(p: seq<Byte>, i: nat): (end: int)
    requires i < |p|
    ensures end == -1 || i < end <= |p|
  {
    if p[i] == OPEN then
      var close := ClassClose(p, FirstSpan(p, i));
      if close == -1 then -1 else close + 1
    else if p[i] == ESCAPE then
      if i + 1 < |p| then i + 2 else -1
    else i + 1
  }

  /** From `i` on, every class is closed and there is no trailing `\`. */
  predicate WellFormed(p: seq<Byte>, i: nat)
    requires i <= |p|
    decreases |p| - i
  {
    i == |p| || (TokenEnd(p, i) != -1 && WellFormed(p, TokenEnd(p, i)))
  }

  /** The token at `i`, which is not `*`, accepts the byte `c`. */
  predicate Accepts(p: seq<Byte>, i: nat, c: Byte)
    requires i < |p| && p[i] != STAR && TokenEnd(p, i) != -1
  {
    if p[i] == ANY then true
    else if p[i] == OPEN then InSpans(p, FirstSpan(p, i), c) != Inverted(p, i)
    else if p[i] == ESCAPE then c == p[i + 1]
    else c == p[i]
  }

  // ---------------------------------------------------------------------------------------------
  // Exhaustive matching

  /** The pattern from `i` matches the name from `j`. A `*` must be met while some of the name is
      left; it then stands for any stretch of it, including nothing and all the rest. */
  ghost predicate Matches(p: seq<Byte>, i: nat, s: seq<Byte>, j: nat)
    requires i <= |p| && j <= |s| && WellFormed(p, i)
    decreases |p| - i
  {
    if j == |s| then i == |p|
    else if i == |p| then false
    else if p[i] == STAR then var rest := i + 1; exists k | j <= k <= |s| :: Matches(p, rest, s, k)
    else Accepts(p, i, s[j]) && Matches(p, TokenEnd(p, i), s, j + 1)
  }

  /** The pattern from `i` matches some end of the name that starts at `j` or later. */
  ghost predicate MatchesLater(p: seq<Byte>, i: nat, s: seq<Byte>, j: nat)
    requires i <= |p| && j <= |s| && WellFormed(p, i)
  {
    exists k | j <= k <= |s| :: Matches(p, i, s, k)
  }

  /** `n` tokens, none of them `*`, lead from `i` to `e`. */
  ghost predicate Plain(p: seq<Byte>, i: nat, n: nat, e: nat)
    requires i <= |p| && WellFormed(p, i)
    decreases n
  {
    if n == 0 then i == e
    else i < |p| && p[i] != STAR && Plain(p, TokenEnd(p, i), n - 1, e)
  }

  lemma {:induction false} PlainExtends(p: seq<Byte>, i: nat, n: nat, e: nat)
    requires i <= |p| && WellFormed(p, i) && Plain(p, i, n, e)
    ensures e <= |p| && WellFormed(p, e)
    ensures e < |p| && p[e] != STAR ==> Plain(p, i, n + 1, TokenEnd(p, e))
    decreases n
  {
    if n > 0 {
      PlainExtends(p, TokenEnd(p, i), n - 1, e);
    }
  }

  /** A match that starts with `n` plain tokens consumes one byte for each. */
  lemma {:induction false} MatchCrosses(p: seq<Byte>, i: nat, n: nat, e: nat, s: seq<Byte>, j: nat)
    requires i <= |p| && j <= |s| && WellFormed(p, i) && Plain(p, i, n, e)
    requires Matches(p, i, s, j)
    ensures e <= |p| && WellFormed(p, e) && j + n <= |s| && Matches(p, e, s, j + n)
    decreases n
  {
    if n > 0 {
      MatchCrosses(p, TokenEnd(p, i), n - 1, e, s, j + 1);
    }
  }

  /** Past the plain tokens behind a `*`, the next `*` takes over: no earlier one is needed again. */
  lemma StarTakesOver(p: seq<Byte>, back: nat, n: nat, i: nat, s: seq<Byte>, j: nat)
    requires back <= |p| && WellFormed(p, back) && Plain(p, back, n, i) && i <= |p| && WellFormed(p, i)
    requires i < |p| && p[i] == STAR && j + n < |s|
    requires Matches(p, back, s, j) <==> Matches(p, i, s, j + n)
    ensures MatchesLater(p, back, s, j) <==> MatchesLater(p, i + 1, s, j + n)
  {
    if MatchesLater(p, back, s, j) {
      var k: nat :| j <= k <= |s| && Matches(p, back, s, k);
      MatchCrosses(p, back, n, i, s, k);
      if k + n < |s| {
        var m: nat :| k + n <= m <= |s| && Matches(p, i + 1, s, m);
      }
    }
  }

  /** At the end of the name a match that starts later than the current attempt is out of reach. */
  lemma LastAttempt(p: seq<Byte>, back: nat, n: nat, i: nat, s: seq<Byte>, j: nat)
    requires back <= |p| && WellFormed(p, back) && Plain(p, back, n, i) && i <= |p| && WellFormed(p, i)
    requires j + n == |s|
    requires Matches(p, back, s, j) <==> Matches(p, i, s, |s|)
    ensures MatchesLater(p, back, s, j) <==> i == |p|
  {
    if MatchesLater(p, back, s, j) {
      var k: nat :| j <= k <= |s| && Matches(p, back, s, k);
      MatchCrosses(p, back, n, i, s, k);
    }
  }

  // ---------------------------------------------------------------------------------------------
  // How this matching differs from the usual one

  /** The usual meaning of a pattern, in which a `*` stands for any stretch, also at the end of the
      name: the tokens from `i` to `e` match the bytes from `j` to `k`. */
  ghost predicate Spans(p: seq<Byte>, i: nat, e: nat, s: seq<Byte>, j: nat, k: nat)
    requires i <= |p| && j <= k <= |s| && WellFormed(p, i)
    decreases |p| - i
  {
    if i == e then j == k
    else if i == |p| then false
    else if p[i] == STAR then var rest := i + 1; exists m | j <= m <= k :: Spans(p, rest, e, s, m, k)
    else j < k && Accepts(p, i, s[j]) && Spans(p, TokenEnd(p, i), e, s, j + 1, k)
  }

  /** The pattern from `i` matches the name from `j` in the usual meaning. */
  ghost predicate Ordinary(p: seq<Byte>, i: nat, s: seq<Byte>, j: nat)
    requires i <= |p| && j <= |s| && WellFormed(p, i)
  {
    Spans(p, i, |p|, s, j, |s|)
  }

  /** The last token is a `*`. */
  predicate EndsInStar(p: seq<Byte>, i: nat)
    requires i <= |p| && WellFormed(p, i)
    decreases |p| - i
  {
    i < |p| && if TokenEnd(p, i) == |p| then p[i] == STAR else EndsInStar(p, TokenEnd(p, i))
  }

  /** `a*` does not match `a`. */
  lemma TrailingStarWitness()
    ensures WellFormed([97, STAR], 0) && EndsInStar([97, STAR], 0)
    ensures !Matches([97, STAR], 0, [97], 0) && Ordinary([97, STAR], 0, [97], 0)
  {
    var p: seq<Byte>, s: seq<Byte> := [97, STAR], [97];
    assert WellFormed(p, 2) && WellFormed(p, 1);
    assert !Matches(p, 1, s, 1);
    assert Spans(p, 2, 2, s, 1, 1);
    assert Spans(p, 1, 2, s, 1, 1);
  }

  /** Nothing is matched that does not match in the usual meaning. */
  lemma {:induction false} MatchesOrdinary(p: seq<Byte>, i: nat, s: seq<Byte>, j: nat)
    requires i <= |p| && j <= |s| && WellFormed(p, i)
    requires Matches(p, i, s, j)
    ensures Ordinary(p, i, s, j)
    decreases |p| - i
  {
    if i < |p| && p[i] == STAR {
      var k: nat :| j <= k <= |s| && Matches(p, i + 1, s, k);
      MatchesOrdinary(p, i + 1, s, k);
    } else if i < |p| {
      MatchesOrdinary(p, TokenEnd(p, i), s, j + 1);
    }
  }

  /** Tokens that match no bytes are all `*`. */
  lemma {:induction false} NothingLeft(p: seq<Byte>, i: nat, s: seq<Byte>)
    requires i < |p| && WellFormed(p, i) && Ordinary(p, i, s, |s|)
    ensures EndsInStar(p, i)
    decreases |p| - i
  {
    if i + 1 < |p| {
      assert Ordinary(p, i + 1, s, |s|);
      NothingLeft(p, i + 1, s);
    }
  }

  /** A pattern whose last token is no `*` matches exactly what it matches in the usual meaning. */
  lemma {:induction false} OrdinaryIff(p: seq<Byte>, i: nat, s: seq<Byte>, j: nat)
    requires i <= |p| && j <= |s| && WellFormed(p, i) && !EndsInStar(p, i)
    ensures Matches(p, i, s, j) <==> Ordinary(p, i, s, j)
    decreases |p| - i
  {
    if Matches(p, i, s, j) {
      MatchesOrdinary(p, i, s, j);
    } else if i < |p| && Ordinary(p, i, s, j) {
      if j == |s| {
        NothingLeft(p, i, s);
      } else if p[i] == STAR {
        var k: nat :| j <= k <= |s| && Spans(p, i + 1, |p|, s, k, |s|);
        OrdinaryIff(p, i + 1, s, k);
      } else {
        OrdinaryIff(p, TokenEnd(p, i), s, j + 1);
      }
    }
  }

  /** The tokens from `i` to the `*` at `e` match, in the usual meaning, some of the name from `j` on, and a
      byte of the name is left. */
  ghost predicate MeetsStar(p: seq<Byte>, i: nat, e: nat, s: seq<Byte>, j: nat)
    requires i <= |p| && j <= |s| && WellFormed(p, i)
  {
    exists k | j <= k < |s| :: Spans(p, i, e, s, j, k)
  }

  lemma StretchOf(p: seq<Byte>, i: nat, rest: nat, e: nat, s: seq<Byte>, j: nat, k: nat) returns (m: nat)
    requires i < |p| && i != e && rest == i + 1 && j <= k <= |s| && WellFormed(p, i) && p[i] == STAR
    requires Spans(p, i, e, s, j, k)
    ensures j <= m <= k && Spans(p, rest, e, s, m, k)
  {
    m :| j <= m <= k && Spans(p, i + 1, e, s, m, k);
  }

  /** Leaving out a `*`, which takes some stretch of the name. */
  lemma StarStep(p: seq<Byte>, i: nat, rest: nat, e: nat, s: seq<Byte>, j: nat)
    requires i < |p| && i != e && rest == i + 1 && j <= |s| && WellFormed(p, i) && p[i] == STAR
    ensures MeetsStar(p, i, e, s, j) <==> exists m | j <= m <= |s| :: MeetsStar(p, rest, e, s, m)
  {
    if MeetsStar(p, i, e, s, j) {
      var k: nat :| j <= k < |s| && Spans(p, i, e, s, j, k);
      var m := StretchOf(p, i, rest, e, s, j, k);
      assert MeetsStar(p, rest, e, s, m);
    }
    forall m: nat | j <= m <= |s| && MeetsStar(p, rest, e, s, m) ensures MeetsStar(p, i, e, s, j) {
      var k: nat :| m <= k < |s| && Spans(p, rest, e, s, m, k);
      assert Spans(p, i, e, s, j, k);
    }
  }

  /** Leaving out another token, which takes one byte. */
  lemma ByteStep(p: seq<Byte>, i: nat, e: nat, s: seq<Byte>, j: nat)
    requires i < |p| && i != e && j < |s| && WellFormed(p, i) && p[i] != STAR
    ensures MeetsStar(p, i, e, s, j) <==> Accepts(p, i, s[j]) && MeetsStar(p, TokenEnd(p, i), e, s, j + 1)
  {
    if MeetsStar(p, i, e, s, j) {
      var k: nat :| j <= k < |s| && Spans(p, i, e, s, j, k);
      assert Spans(p, TokenEnd(p, i), e, s, j + 1, k);
    }
    if Accepts(p, i, s[j]) && MeetsStar(p, TokenEnd(p, i), e, s, j + 1) {
      var k: nat :| j + 1 <= k < |s| && Spans(p, TokenEnd(p, i), e, s, j + 1, k);
      assert Spans(p, i, e, s, j, k);
    }
  }

  /** A pattern that ends in `*` matches if and only if what stands before that `*` matches, in the usual
      meaning, a beginning of the name that leaves a byte over. */
  lemma {:induction false} TrailingStarIff(p: seq<Byte>, i: nat, s: seq<Byte>, j: nat)
    requires i <= |p| && j <= |s| && WellFormed(p, i) && EndsInStar(p, i)
    ensures Matches(p, i, s, j) <==> MeetsStar(p, i, |p| - 1, s, j)
    decreases |p| - i
  {
    var last, rest := |p| - 1, TokenEnd(p, i);
    if i == last {
      assert j < |s| ==> Matches(p, rest, s, |s|) && Spans(p, i, last, s, j, j);
    } else if p[i] == STAR {
      StarStep(p, i, rest, last, s, j);
      forall k: nat | j <= k <= |s| ensures Matches(p, rest, s, k) <==> MeetsStar(p, rest, last, s, k) {
        TrailingStarIff(p, rest, s, k);
      }
    } else if j < |s| {
      ByteStep(p, i, last, s, j);
      TrailingStarIff(p, rest, s, j + 1);
    }
  }

  // ---------------------------------------------------------------------------------------------
  // The loop

  lemma NextSpan(p: seq<Byte>, i: nat, c: Byte)
    requires ClassClose(p, i) != -1
    ensures i < |p| && SpanAt(p, i).next < |p|
    ensures var s := SpanAt(p, i);
      if p[s.next] == CLOSE then ClassClose(p, i) == s.next && (InSpans(p, i, c) <==> s.lo <= c <= s.hi)
      else ClassClose(p, i) == ClassClose(p, s.next) && (InSpans(p, i, c) <==> s.lo <= c <= s.hi || InSpans(p, s.next, c))
  {
  }

  /** Reads the class whose `[` is at `open`: does it accept `c`, and where does the class end. */
  method MatchClass(p: seq<Byte>, open: nat, c: Byte) returns (accepts: bool, end: nat)
    requires open < |p| && p[open] == OPEN && TokenEnd(p, open) != -1
    ensures end == TokenEnd(p, open) && accepts == Accepts(p, open, c)
  {
    hide InSpans, ClassClose;
    var matched, inverted := false, At(p, open + 1) == CARET;
    var cls := open + 1 + if inverted then 1 else 0;
    ghost var first := cls;
    var a := p[cls];
    cls := cls + 1;
    while true
      invariant first < cls <= |p| && a == p[cls - 1]
      invariant ClassClose(p, cls - 1) == ClassClose(p, first) != -1
      invariant InSpans(p, first, c) == (matched || InSpans(p, cls - 1, c))
      decreases |p| - cls
    {
      ghost var start := cls - 1;
      NextSpan(p, start, c);
      var b := a;
      if At(p, cls) == DASH && At(p, cls + 1) != CLOSE {
        b := At(p, cls + 1);
        cls := cls + 2;
        if a > b {
          a, b := b, a;
        }
      }
      assert SpanAt(p, start) == Span(a, b, cls);
      matched := matched || a <= c <= b;
      a := At(p, cls);
      cls := cls + 1;
      if a == CLOSE {
        break;
      }
    }
    return matched != inverted, cls;
  }

  /** Returns whether the whole pattern matches the whole name. */
  method GlobMatch(p: seq<Byte>, s: seq<Byte>) returns (r: bool)
    requires WellFormed(p, 0) && NUL !in s
    ensures r == Matches(p, 0, s, 0)
  {
    hide InSpans, ClassClose, SpanAt;
    var pat: nat, ch: nat := 0, 0;
    var starred, backPat: nat, backCh: nat := false, 0, 0;
    ghost var n: nat := 0;  // tokens matched since the last `*`
    while ch < |s|
      invariant pat <= |p| && WellFormed(p, pat) && ch <= |s|
      invariant !starred ==> backPat == backCh == 0 && (Matches(p, 0, s, 0) <==> Matches(p, pat, s, ch))
      invariant starred ==> backPat <= pat && backPat < |p| && WellFormed(p, backPat) && Plain(p, backPat, n, pat)
      invariant starred ==> backCh + n == ch && backCh <= |s|
      invariant starred ==> (Matches(p, backPat, s, backCh) <==> Matches(p, pat, s, ch))
      invariant starred ==> (Matches(p, 0, s, 0) <==> MatchesLater(p, backPat, s, backCh))
      decreases |p| - backPat, |s| - backCh, |s| - ch
    {
      var c, d := s[ch], At(p, pat);
      var matched, end := true, pat + 1;
      if d == STAR {
        if starred {
          StarTakesOver(p, backPat, n, pat, s, backCh);
        }
        if end == |p| {
          assert Matches(p, end, s, |s|);
          return true;
        }
        // zero bytes for now; try again from here with more of them later
        starred, backPat, backCh, n := true, end, ch, 0;
        pat := end;
        continue;
      } else if d == OPEN {
        matched, end := MatchClass(p, pat, c);
      } else if d != ANY {
        if d == ESCAPE {
          d := p[pat + 1];
          end := pat + 2;
        }
        matched := c == d;
      }
      assert pat == |p| ==> !matched;
      if matched {
        if starred {
          PlainExtends(p, backPat, n, pat);
        }
        pat, ch, n := end, ch + 1, n + 1;
      } else if !starred {
        return false;
      } else {
        backCh := backCh + 1;
        pat, ch, n := backPat, backCh, 0;
      }
    }
    if starred {
      LastAttempt(p, backPat, n, pat, s, backCh);
    }
    r := pat == |p|;
  }
}
