/** The JSON parser over bytes: which token the bytes at the cursor make, and the loop that feeds the
    tokens of a buffer to the nesting state machine. */
module JsonParse {
  import opened Options
  import opened JsonNesting
  import Scan = JsonScan

  type Bytes = seq<bv8>

  /** Where the two number readers stop when started at a position, and which containers the
      callbacks refuse. */
  datatype Env = Env(intEnd: (Bytes, nat) -> nat, floatEnd: (Bytes, nat) -> nat, refuse: State -> bool)

  /** The bytes at the cursor: a token, a comment to skip, a token cut off by the end of the buffer,
      or an error. */
  datatype Lexeme = Found(token: Token, next: nat) | Comment(next: nat) | More | Bad

  /** A NUL byte follows the buffer. */
  function At(buf: Bytes, i: nat): bv8 {
    if i < |buf| then buf[i] else 0
  }

  predicate IsSeparator(b: bv8) {
    b == 9 || b == 10 || b == 13 || b == 32 || b == 44
  }

  /** Bytes that may belong to a number: digits and any of `+-.beEx`. */
  predicate IsNumeral(b: bv8) {
    48 <= b <= 57 || b == 43 || b == 45 || b == 46 || b == 69 || b == 98 || b == 101 || b == 120
  }

  predicate StartsNumber(b: bv8) {
    48 <= b <= 57 || b == 45 || b == 46 || b == 69 || b == 101 || b == 120 || b == 73 || b == 105
  }

  function AfterSeparators(buf: Bytes, i: nat): (r: nat)
    requires i <= |buf|
    ensures i <= r <= |buf|
    decreases |buf| - i
  {
    if i < |buf| && IsSeparator(buf[i]) then AfterSeparators(buf, i + 1) else i
  }

  /** The first `b` at `i` or later, or the end of the buffer. */
  function FindByte(buf: Bytes, b: bv8, i: nat): (r: nat)
    requires i <= |buf|
    ensures i <= r <= |buf|
    decreases |buf| - i
  {
    if i < |buf| && buf[i] != b then FindByte(buf, b, i + 1) else i
  }

  /** The first `/` at `i` or later that ends a comment, or the end of the buffer. */
  function CommentEnd(buf: Bytes, i: nat): (r: nat)
    requires 1 <= i <= |buf|
    ensures i <= r <= |buf|
    decreases |buf| - i
  {
    if i < |buf| && !(buf[i] == 47 && buf[i - 1] == 42) then CommentEnd(buf, i + 1) else i
  }

  /** The quote that closes the string whose text starts at `start`, or the end of the buffer. */
  ghost function StringEnd(buf: Bytes, start: nat, i: nat): (r: nat)
    requires start <= i <= |buf|
    ensures i <= r <= |buf|
    decreases |buf| - i
  {
    if i < |buf| && !Scan.Closes(buf, start, i) then StringEnd(buf, start, i + 1) else i
  }

  ghost function LexString(buf: Bytes, pos: nat, key: bool): Lexeme
    requires pos < |buf|
  {
    var end := StringEnd(buf, pos + 1, pos + 1);
    if end == |buf| then More
    else if key then
      var colon := AfterSeparators(buf, end + 1);
      if colon == |buf| then More
      else if buf[colon] != 58 then Bad
      else Found(KeyToken(buf[pos + 1..end]), colon + 1)
    else Found(StringToken(buf[pos + 1..end]), end + 1)
  }

  function LexNumber(buf: Bytes, pos: nat, env: Env): Lexeme {
    var i := env.intEnd(buf, pos);
    if i > |buf| then More
    else if i <= pos || IsNumeral(At(buf, i)) then
      var f := env.floatEnd(buf, pos);
      if f > |buf| then More
      else if f <= pos || IsNumeral(At(buf, f)) then Bad
      else Found(Literal(Float), f)
    else Found(Literal(Number), i)
  }

  /** A fixed word: `rest` are the bytes behind its first one. */
  function LexWord(buf: Bytes, pos: nat, rest: Bytes, value: Event): Lexeme
    requires pos < |buf|
  {
    if pos + |rest| >= |buf| then More
    else if buf[pos + 1..pos + 1 + |rest|] == rest then Found(Literal(value), pos + 1 + |rest|)
    else Bad
  }

  function LexComment(buf: Bytes, pos: nat): Lexeme
    requires pos < |buf|
  {
    if buf[pos] == 35 || At(buf, pos + 1) == 47 then
      var end := FindByte(buf, 10, pos);
      if end == |buf| then More else Comment(end + 1)
    else if At(buf, pos + 1) == 42 then
      if pos + 4 > |buf| then More else
      var end := CommentEnd(buf, pos + 3);
      if end == |buf| then More else Comment(end + 1)
    else Bad
  }

  ghost function Lex(buf: Bytes, pos: nat, key: bool, env: Env): (lex: Lexeme)
    requires pos < |buf|
    ensures lex.Found? || lex.Comment? ==> pos < lex.next <= |buf|
    ensures lex.Found? ==> (lex.token.KeyToken? ==> key) && (lex.token.StringToken? ==> !key)
    ensures lex.Found? && lex.token.Literal? ==> IsValue(lex.token.value) && !lex.token.value.Str?
  {
    var b := buf[pos];
    if b == 34 then LexString(buf, pos, key)
    else if b == 123 then Found(OpenObject, pos + 1)
    else if b == 125 then Found(CloseObject, pos + 1)
    else if b == 91 then Found(OpenArray, pos + 1)
    else if b == 93 then Found(CloseArray, pos + 1)
    else if b == 116 then LexWord(buf, pos, [114, 117, 101], True)
    else if b == 78 || b == 110 then
      if pos + 2 <= |buf| && (At(buf, pos + 1) | 32) == 97 && (At(buf, pos + 2) | 32) == 110
      then LexNumber(buf, pos, env)
      else LexWord(buf, pos, [117, 108, 108], Null)
    else if b == 102 then LexWord(buf, pos, [97, 108, 115, 101], False)
    else if StartsNumber(b) then LexNumber(buf, pos, env)
    else if b == 35 || b == 47 then LexComment(buf, pos)
    else Bad
  }

  // ---------------------------------------------------------------------------------------------
  // Which bytes make which token

  const TRUE: Bytes := [116, 114, 117, 101]
  const FALSE: Bytes := [102, 97, 108, 115, 101]
  const NULL: Bytes := [110, 117, 108, 108]
  const CAPITAL_NULL: Bytes := [78, 117, 108, 108]

  predicate HasWord(buf: Bytes, pos: nat, word: Bytes) {
    pos + |word| <= |buf| && buf[pos..pos + |word|] == word
  }

  predicate Is(lex: Lexeme, t: Token, next: nat) {
    lex.Found? && lex.token == t && lex.next == next
  }

  predicate IsToken(lex: Lexeme, t: Token) {
    lex.Found? && lex.token == t
  }

  /** `true`, `false` and `null`, which may start with a capital, and nothing else, make the three fixed values; fewer
      bytes than the word has are waited for. */
  predicate ReadsWords(buf: Bytes, pos: nat, lex: Lexeme)
    requires pos < |buf|
  {
    && (IsToken(lex, Literal(True)) <==> HasWord(buf, pos, TRUE))
    && (IsToken(lex, Literal(False)) <==> HasWord(buf, pos, FALSE))
    && (IsToken(lex, Literal(Null)) <==> HasWord(buf, pos, NULL) || HasWord(buf, pos, CAPITAL_NULL))
    && (lex.Found? && (lex.token == Literal(True) || lex.token == Literal(Null)) ==> lex.next == pos + 4)
    && (IsToken(lex, Literal(False)) ==> lex.next == pos + 5)
    && (buf[pos] == 116 && !HasWord(buf, pos, TRUE) ==> if pos + 4 > |buf| then lex.More? else lex.Bad?)
    && (buf[pos] == 102 && !HasWord(buf, pos, FALSE) ==> if pos + 5 > |buf| then lex.More? else lex.Bad?)
    && ((buf[pos] == 110 || buf[pos] == 78) && !NotANumber(buf, pos) ==>
          HasWord(buf, pos, NULL) || HasWord(buf, pos, CAPITAL_NULL) || if pos + 4 > |buf| then lex.More? else lex.Bad?)
  }

  predicate ReadsBrackets(buf: Bytes, pos: nat, lex: Lexeme)
    requires pos < |buf|
  {
    && (IsToken(lex, OpenObject) <==> buf[pos] == 123) && (IsToken(lex, CloseObject) <==> buf[pos] == 125)
    && (IsToken(lex, OpenArray) <==> buf[pos] == 91) && (IsToken(lex, CloseArray) <==> buf[pos] == 93)
    && (buf[pos] == 123 || buf[pos] == 125 || buf[pos] == 91 || buf[pos] == 93 ==> lex.Found? && lex.next == pos + 1)
  }

  /** `nan`, in small or capital letters. */
  predicate NotANumber(buf: Bytes, pos: nat)
    requires pos < |buf|
  {
    && (buf[pos] == 110 || buf[pos] == 78) && pos + 2 <= |buf|
    && (At(buf, pos + 1) == 97 || At(buf, pos + 1) == 65) && (At(buf, pos + 2) == 110 || At(buf, pos + 2) == 78)
  }

  predicate Numeric(buf: Bytes, pos: nat)
    requires pos < |buf|
  {
    StartsNumber(buf[pos]) || NotANumber(buf, pos)
  }

  /** The reader that stops at `end` has read something, and no byte that may belong to a number follows. */
  predicate ReadsUpTo(buf: Bytes, pos: nat, end: nat) {
    pos < end <= |buf| && !IsNumeral(At(buf, end))
  }

  /** An integer if the reader of integers reads it whole; else a number with a fraction if the other reader does. */
  predicate ReadsNumbers(buf: Bytes, pos: nat, env: Env, lex: Lexeme)
    requires pos < |buf|
  {
    var i, f := env.intEnd(buf, pos), env.floatEnd(buf, pos);
    && (IsToken(lex, Literal(Number)) <==> Numeric(buf, pos) && ReadsUpTo(buf, pos, i))
    && (IsToken(lex, Literal(Float)) <==> Numeric(buf, pos) && i <= |buf| && !ReadsUpTo(buf, pos, i) && ReadsUpTo(buf, pos, f))
    && (IsToken(lex, Literal(Number)) ==> lex.next == i) && (IsToken(lex, Literal(Float)) ==> lex.next == f)
    && (Numeric(buf, pos) && !lex.Found? ==>
          if i > |buf| || f > |buf| then lex.More? else lex.Bad?)
  }

  /** The last byte of the comment that starts at `pos`: the first line end of `#` and `//`, the first `*` and `/` of
      the other kind, which cannot share the `*` that opens it. */
  predicate EndsComment(buf: Bytes, pos: nat, end: nat)
    requires pos < |buf|
  {
    && pos < end < |buf|
    && if buf[pos] == 35 || (buf[pos] == 47 && At(buf, pos + 1) == 47) then
         buf[end] == 10 && forall k | pos <= k < end :: buf[k] != 10
       else
         && buf[pos] == 47 && At(buf, pos + 1) == 42
         && pos + 3 <= end && ClosesComment(buf, end) && forall k | pos + 3 <= k < end :: !ClosesComment(buf, k)
  }

  predicate ClosesComment(buf: Bytes, k: nat)
    requires 0 < k < |buf|
  {
    buf[k - 1] == 42 && buf[k] == 47
  }

  ghost predicate ReadsComments(buf: Bytes, pos: nat, lex: Lexeme)
    requires pos < |buf|
  {
    && (lex.Comment? ==> lex.next > 0 && EndsComment(buf, pos, lex.next - 1))
    && (forall end: nat | EndsComment(buf, pos, end) :: lex == Comment(end + 1))
    && (buf[pos] == 35 || (buf[pos] == 47 && (At(buf, pos + 1) == 47 || At(buf, pos + 1) == 42)) ==> lex.Comment? || lex.More?)
    && (buf[pos] == 47 && At(buf, pos + 1) != 47 && At(buf, pos + 1) != 42 ==> lex.Bad?)
  }

  /** The quote at `end` closes the string that is opened at `pos`. */
  ghost predicate EndsString(buf: Bytes, pos: nat, end: nat)
    requires pos < |buf|
  {
    var start := pos + 1;
    buf[pos] == 34 && pos < end < |buf| && Scan.Closes(buf, start, end) && forall k | start <= k < end :: !Scan.Closes(buf, start, k)
  }

  /** Between the quote that closes a key and the colon at `colon` there are separators only. */
  predicate KeyEnds(buf: Bytes, end: nat, colon: nat) {
    end < colon < |buf| && buf[colon] == 58 && forall k | end < k < colon :: IsSeparator(buf[k])
  }

  /** A string is what stands between its quotes; as a key it must be followed by a colon. */
  ghost predicate ReadsStrings(buf: Bytes, pos: nat, key: bool, lex: Lexeme)
    requires pos < |buf|
  {
    && (lex.Found? && (lex.token.StringToken? || lex.token.KeyToken?) ==> buf[pos] == 34)
    && (buf[pos] == 34 && (forall end: nat :: !EndsString(buf, pos, end)) ==> lex.More?)
    && forall end: nat | EndsString(buf, pos, end) ::
         var text := buf[pos + 1..end];
         if !key then lex == Found(StringToken(text), end + 1)
         else
           && (forall colon: nat | KeyEnds(buf, end, colon) :: lex == Found(KeyToken(text), colon + 1))
           && (lex.Found? ==> lex.next > 0 && KeyEnds(buf, end, lex.next - 1))
           && (lex.More? <==> forall k | end < k < |buf| :: IsSeparator(buf[k]))
  }

  /** Nothing else makes a token. */
  predicate ReadsNothingElse(buf: Bytes, pos: nat, lex: Lexeme)
    requires pos < |buf|
  {
    var b := buf[pos];
    || lex.Bad? || StartsNumber(b) || b == 34 || b == 123 || b == 125 || b == 91 || b == 93 || b == 116 || b == 102
    || b == 110 || b == 78 || b == 35 || b == 47
  }

  lemma WordIs(buf: Bytes, pos: nat, first: bv8, rest: Bytes, value: Event)
    requires pos < |buf| && buf[pos] == first
    ensures var lex, n := LexWord(buf, pos, rest, value), 1 + |rest|;
      if HasWord(buf, pos, [first] + rest) then lex == Found(Literal(value), pos + n)
      else if pos + n > |buf| then lex == More else lex == Bad
  {
    if pos + 1 + |rest| <= |buf| {
      assert buf[pos..pos + 1 + |rest|] == [buf[pos]] + buf[pos + 1..pos + 1 + |rest|];
      assert ([first] + rest)[1..] == rest && ([buf[pos]] + buf[pos + 1..pos + 1 + |rest|])[1..] == buf[pos + 1..pos + 1 + |rest|];
    }
  }

  lemma WordStart(buf: Bytes, pos: nat, word: Bytes)
    requires pos < |buf| && word != []
    ensures HasWord(buf, pos, word) ==> buf[pos] == word[0]
  {
    if HasWord(buf, pos, word) {
      assert buf[pos..pos + |word|][0] == buf[pos];
    }
  }

  lemma LowerCase(b: bv8)
    ensures b | 32 == 97 <==> b == 97 || b == 65
    ensures b | 32 == 110 <==> b == 110 || b == 78
  {
  }

  lemma LexWords(buf: Bytes, pos: nat, key: bool, env: Env)
    requires pos < |buf|
    ensures ReadsWords(buf, pos, Lex(buf, pos, key, env))
  {
    WordStart(buf, pos, TRUE);
    WordStart(buf, pos, FALSE);
    WordStart(buf, pos, NULL);
    WordStart(buf, pos, CAPITAL_NULL);
    LowerCase(At(buf, pos + 1));
    LowerCase(At(buf, pos + 2));
    hide HasWord;
    if buf[pos] == 116 { WordIs(buf, pos, 116, [114, 117, 101], True); }
    if buf[pos] == 102 { WordIs(buf, pos, 102, [97, 108, 115, 101], False); }
    if buf[pos] == 110 { WordIs(buf, pos, 110, [117, 108, 108], Null); NullIsNoNumber(buf, pos, NULL); }
    if buf[pos] == 78 { WordIs(buf, pos, 78, [117, 108, 108], Null); NullIsNoNumber(buf, pos, CAPITAL_NULL); }
    assert [116] + [114, 117, 101] == TRUE && [102] + [97, 108, 115, 101] == FALSE;
    assert [110] + [117, 108, 108] == NULL && [78] + [117, 108, 108] == CAPITAL_NULL;
    hide LexWord, LexString, LexComment;
  }

  lemma NullIsNoNumber(buf: Bytes, pos: nat, word: Bytes)
    requires pos < |buf| && (word == NULL || word == CAPITAL_NULL)
    ensures HasWord(buf, pos, word) ==> !NotANumber(buf, pos)
  {
    if HasWord(buf, pos, word) {
      assert buf[pos..pos + 4][1] == buf[pos + 1];
    }
  }

  lemma LexBrackets(buf: Bytes, pos: nat, key: bool, env: Env)
    requires pos < |buf|
    ensures ReadsBrackets(buf, pos, Lex(buf, pos, key, env)) && ReadsNothingElse(buf, pos, Lex(buf, pos, key, env))
  {
  }

  lemma LexNumbers(buf: Bytes, pos: nat, key: bool, env: Env)
    requires pos < |buf|
    ensures ReadsNumbers(buf, pos, env, Lex(buf, pos, key, env))
  {
    LowerCase(At(buf, pos + 1));
    LowerCase(At(buf, pos + 2));
    hide LexString, LexComment;
  }

  lemma {:induction false} FirstByte(buf: Bytes, b: bv8, i: nat)
    requires i <= |buf|
    ensures var e := FindByte(buf, b, i); (e < |buf| ==> buf[e] == b) && forall k | i <= k < e :: buf[k] != b
    decreases |buf| - i
  {
    if i < |buf| && buf[i] != b {
      FirstByte(buf, b, i + 1);
    }
  }

  lemma {:induction false} FirstClose(buf: Bytes, i: nat)
    requires 1 <= i <= |buf|
    ensures var e := CommentEnd(buf, i); (e < |buf| ==> ClosesComment(buf, e)) && forall k | i <= k < e :: !ClosesComment(buf, k)
    decreases |buf| - i
  {
    if i < |buf| && !ClosesComment(buf, i) {
      FirstClose(buf, i + 1);
    }
  }

  lemma LexComments(buf: Bytes, pos: nat, key: bool, env: Env)
    requires pos < |buf|
    ensures ReadsComments(buf, pos, Lex(buf, pos, key, env))
  {
    if buf[pos] == 35 || buf[pos] == 47 {
      CommentIs(buf, pos);
      hide LexComment, EndsComment, ReadsComments;
    }
  }

  lemma CommentIs(buf: Bytes, pos: nat)
    requires pos < |buf| && (buf[pos] == 35 || buf[pos] == 47)
    ensures ReadsComments(buf, pos, LexComment(buf, pos))
  {
    FirstByte(buf, 10, pos);
    if pos + 3 <= |buf| {
      FirstClose(buf, pos + 3);
    }
    hide FindByte, CommentEnd;
  }

  lemma {:induction false} FirstQuote(buf: Bytes, start: nat, i: nat)
    requires start <= i <= |buf|
    ensures var e := StringEnd(buf, start, i);
      (e < |buf| ==> Scan.Closes(buf, start, e)) && forall k | i <= k < e :: !Scan.Closes(buf, start, k)
    decreases |buf| - i
  {
    if i < |buf| && !Scan.Closes(buf, start, i) {
      FirstQuote(buf, start, i + 1);
    }
  }

  lemma {:induction false} OnlySeparators(buf: Bytes, i: nat)
    requires i <= |buf|
    ensures var e := AfterSeparators(buf, i); (e < |buf| ==> !IsSeparator(buf[e])) && forall k | i <= k < e :: IsSeparator(buf[k])
    decreases |buf| - i
  {
    if i < |buf| && IsSeparator(buf[i]) {
      OnlySeparators(buf, i + 1);
    }
  }

  lemma LexStrings(buf: Bytes, pos: nat, key: bool, env: Env)
    requires pos < |buf|
    ensures ReadsStrings(buf, pos, key, Lex(buf, pos, key, env))
  {
    if buf[pos] == 34 {
      StringIs(buf, pos, key);
      hide LexString, ReadsStrings;
    }
  }

  lemma OneEnd(buf: Bytes, pos: nat, end: nat, other: nat)
    requires pos < |buf| && EndsString(buf, pos, end) && EndsString(buf, pos, other)
    ensures end == other
  {
    assert Scan.Closes(buf, pos + 1, end) && Scan.Closes(buf, pos + 1, other);
  }

  lemma StringIs(buf: Bytes, pos: nat, key: bool)
    requires pos < |buf| && buf[pos] == 34
    ensures ReadsStrings(buf, pos, key, LexString(buf, pos, key))
  {
    FirstQuote(buf, pos + 1, pos + 1);
    var end := StringEnd(buf, pos + 1, pos + 1);
    if end < |buf| {
      assert EndsString(buf, pos, end);
      forall other: nat | EndsString(buf, pos, other) ensures other == end {
        OneEnd(buf, pos, end, other);
      }
      if key {
        KeyIs(buf, pos, end);
      }
      hide EndsString, StringEnd, KeyEnds, AfterSeparators;
    } else {
      forall other: nat ensures !EndsString(buf, pos, other) {
      }
      hide StringEnd;
    }
  }

  lemma KeyIs(buf: Bytes, pos: nat, end: nat)
    requires pos < |buf| && buf[pos] == 34 && end < |buf| && StringEnd(buf, pos + 1, pos + 1) == end
    ensures var text, lex := buf[pos + 1..end], LexString(buf, pos, true);
      && (forall colon: nat | KeyEnds(buf, end, colon) :: lex == Found(KeyToken(text), colon + 1))
      && (lex.Found? ==> lex.next > 0 && KeyEnds(buf, end, lex.next - 1))
      && (lex.More? <==> forall k | end < k < |buf| :: IsSeparator(buf[k]))
  {
    OnlySeparators(buf, end + 1);
    var c := AfterSeparators(buf, end + 1);
    hide AfterSeparators, StringEnd;
    if c < |buf| {
      assert !IsSeparator(buf[c]);
      forall colon: nat | KeyEnds(buf, end, colon) ensures colon == c {
        assert buf[colon] == 58;
      }
    }
  }

  /** What the reading of a token promises, all together. */
  ghost predicate Reads(buf: Bytes, pos: nat, key: bool, env: Env, lex: Lexeme)
    requires pos < |buf|
  {
    && ReadsWords(buf, pos, lex) && ReadsBrackets(buf, pos, lex) && ReadsNumbers(buf, pos, env, lex)
    && ReadsComments(buf, pos, lex) && ReadsStrings(buf, pos, key, lex) && ReadsNothingElse(buf, pos, lex)
  }

  lemma LexReads(buf: Bytes, pos: nat, key: bool, env: Env)
    requires pos < |buf|
    ensures Reads(buf, pos, key, env, Lex(buf, pos, key, env))
  {
    LexWords(buf, pos, key, env);
    LexBrackets(buf, pos, key, env);
    LexNumbers(buf, pos, key, env);
    LexComments(buf, pos, key, env);
    LexStrings(buf, pos, key, env);
    hide Lex, ReadsWords, ReadsBrackets, ReadsNumbers, ReadsComments, ReadsStrings, ReadsNothingElse;
  }

  // ---------------------------------------------------------------------------------------------
  // Whole buffers

  datatype Outcome = Stopped(st: State, consumed: nat) | Failed

  /** What a call makes of the buffer from `pos` on. */
  ghost function ParseFrom(st: State, buf: Bytes, pos: nat, env: Env): Outcome
    requires pos <= |buf|
    decreases |buf| - pos
  {
    var p := AfterSeparators(buf, pos);
    if p == |buf| then Stopped(st, p) else
    match Lex(buf, p, st.key, env)
    case More => Stopped(st, p)
    case Bad => Failed
    case Comment(next) => ParseFrom(st, buf, next, env)
    case Found(t, next) =>
      match Consume(st, t, env.refuse)
      case None => Failed
      case Some(after) =>
        if !t.KeyToken? && after.depth == 0 then Stopped(after, next) else ParseFrom(after, buf, next, env)
  }

  /** The tokens that a call consumes. */
  ghost function TokensFrom(st: State, buf: Bytes, pos: nat, env: Env): seq<Token>
    requires pos <= |buf|
    decreases |buf| - pos
  {
    var p := AfterSeparators(buf, pos);
    if p == |buf| then [] else
    match Lex(buf, p, st.key, env)
    case Comment(next) => TokensFrom(st, buf, next, env)
    case Found(t, next) =>
      (match Consume(st, t, env.refuse)
       case None => [t]
       case Some(after) =>
         [t] + if !t.KeyToken? && after.depth == 0 then [] else TokensFrom(after, buf, next, env))
    case _ => []
  }

  /** A call that does not fail feeds exactly its tokens to the nesting state machine. */
  lemma {:induction false} ParseFeeds(st: State, buf: Bytes, pos: nat, env: Env)
    requires pos <= |buf| && ParseFrom(st, buf, pos, env).Stopped?
    ensures AllFit(st, TokensFrom(st, buf, pos, env), env.refuse)
    ensures Feed(st, TokensFrom(st, buf, pos, env), env.refuse) == Some(ParseFrom(st, buf, pos, env).st)
    decreases |buf| - pos
  {
    var p := AfterSeparators(buf, pos);
    if p < |buf| {
      match Lex(buf, p, st.key, env)
      case Comment(next) => ParseFeeds(st, buf, next, env);
      case Found(t, next) =>
        var after := Consume(st, t, env.refuse).value;
        var tokens := TokensFrom(st, buf, pos, env);
        assert tokens[0] == t;
        if t.KeyToken? || after.depth != 0 {
          ParseFeeds(after, buf, next, env);
          assert tokens[1..] == TokensFrom(after, buf, next, env);
        } else {
          assert tokens[1..] == [];
        }
      case _ =>
    }
  }

  lemma {:induction false} StringEndIs(buf: Bytes, start: nat, i: nat, q: nat)
    requires start <= i <= q <= |buf| && (q < |buf| ==> Scan.Closes(buf, start, q))
    requires forall k :: i <= k < q ==> !Scan.Closes(buf, start, k)
    ensures StringEnd(buf, start, i) == q
    decreases q - i
  {
    if i < q {
      StringEndIs(buf, start, i + 1, q);
    }
  }

  class Parser {
    var dict: nat
    var depth: nat
    var key: bool
    var events: seq<Event>

    ghost function Current(): State
      reads this
    {
      State(dict, depth, key, events)
    }

    constructor ()
      ensures Current() == INITIAL
    {
      dict, depth, key, events := 0, 0, false, [];
    }

    method SkipSeparators(buf: Bytes, from: nat) returns (pos: nat)
      requires from <= |buf|
      ensures pos == AfterSeparators(buf, from)
    {
      pos := from;
      while pos < |buf| && IsSeparator(buf[pos])
        invariant from <= pos <= |buf| && AfterSeparators(buf, pos) == AfterSeparators(buf, from)
      {
        pos := pos + 1;
      }
    }

    /** A string at `pos`, scanned a word at a time. */
    method ReadString(buf: Bytes, base: nat, unaligned: bool, pos: nat) returns (lex: Lexeme)
      requires pos < |buf|
      ensures lex == LexString(buf, pos, key)
    {
      var found, end := Scan.Seek2Eos(buf, base, pos + 1, |buf|, unaligned);
      StringEndIs(buf, pos + 1, pos + 1, if found then end else |buf|);
      if !found {
        return More;
      }
      if key {
        var colon := SkipSeparators(buf, end + 1);
        if colon >= |buf| {
          return More;
        }
        if buf[colon] != 58 {
          return Bad;
        }
        return Found(KeyToken(buf[pos + 1..end]), colon + 1);
      }
      return Found(StringToken(buf[pos + 1..end]), end + 1);
    }

    method ReadToken(buf: Bytes, base: nat, unaligned: bool, pos: nat, env: Env) returns (lex: Lexeme)
      requires pos < |buf|
      ensures lex == Lex(buf, pos, key, env) && Reads(buf, pos, key, env, lex)
    {
      LexReads(buf, pos, key, env);
      hide Reads;
      var b := buf[pos];
      if b == 34 {
        lex := ReadString(buf, base, unaligned, pos);
      } else if b == 123 {
        lex := Found(OpenObject, pos + 1);
      } else if b == 125 {
        lex := Found(CloseObject, pos + 1);
      } else if b == 91 {
        lex := Found(OpenArray, pos + 1);
      } else if b == 93 {
        lex := Found(CloseArray, pos + 1);
      } else if b == 116 {
        lex := LexWord(buf, pos, [114, 117, 101], True);
      } else if b == 78 || b == 110 {
        if pos + 2 <= |buf| && (At(buf, pos + 1) | 32) == 97 && (At(buf, pos + 2) | 32) == 110 {
          lex := LexNumber(buf, pos, env);
        } else {
          lex := LexWord(buf, pos, [117, 108, 108], Null);
        }
      } else if b == 102 {
        lex := LexWord(buf, pos, [97, 108, 115, 101], False);
      } else if StartsNumber(b) {
        lex := LexNumber(buf, pos, env);
      } else if b == 35 || b == 47 {
        lex := LexComment(buf, pos);
      } else {
        lex := Bad;
      }
    }

    /** Acts on a token: updates the bitmap, the depth and the flag and makes the callbacks. `done`
        reports that a document is complete. */
    method Act(t: Token, refuse: State -> bool) returns (ok: bool, done: bool)
      requires Represents(Current()) && Fits(Current(), t)
      modifies this
      ensures ok <==> Consume(old(Current()), t, refuse) != None
      ensures ok ==> Current() == Consume(old(Current()), t, refuse).value
      ensures ok ==> (done <==> !t.KeyToken? && depth == 0)
    {
      DepthZero(Current());
      ok, done := true, false;
      match t {
        case KeyToken(text) =>
          events := events + [Key(text)];
          key := false;
          return;
        case StringToken(text) => events := events + [Str(text)];
        case Literal(value) => events := events + [value];
        case OpenObject =>
          if key {
            return false, false;
          }
          depth := depth + 1;
          if depth >= MAX_DEPTH {
            return false, false;
          }
          dict := (dict * 2 + 1) % WORD;
          events := events + [StartObject];
          if refuse(State(dict, depth, key, events)) {
            return false, false;
          }
        case OpenArray =>
          if key {
            return false, false;
          }
          depth := depth + 1;
          if depth >= MAX_DEPTH {
            return false, false;
          }
          dict := (dict * 2) % WORD;
          events := events + [StartArray];
          if refuse(State(dict, depth, key, events)) {
            return false, false;
          }
        case CloseObject =>
          if dict % 2 == 0 {
            return false, false;
          }
          if !key {
            events := events + [Null];
          }
          depth := depth - 1;
          dict := dict / 2;
          events := events + [EndObject];
        case CloseArray =>
          if dict % 2 == 1 || depth == 0 {
            return false, false;
          }
          depth := depth - 1;
          dict := dict / 2;
          events := events + [EndArray];
      }
      if depth == 0 {
        events := events + [Json];
        done := true;
      } else {
        key := dict % 2 == 1;
      }
    }

    /** Parses what it can of a buffer and says how many bytes it used. Any number of calls may
        follow one another; `base` is the address of the buffer. */
    method Parse(buf: Bytes, base: nat, unaligned: bool, env: Env) returns (failed: bool, consumed: nat)
      requires Represents(Current())
      modifies this
      ensures failed == ParseFrom(old(Current()), buf, 0, env).Failed?
      ensures !failed ==> ParseFrom(old(Current()), buf, 0, env) == Stopped(Current(), consumed)
      ensures !failed ==> Represents(Current())
      ensures !failed && old(StrictSoFar(Current())) ==>
        (Strict(Current()) <==> NoStray(old(Current()), TokensFrom(old(Current()), buf, 0, env), env.refuse))
    {
      ghost var start := Current();
      if |buf| == 0 {
        return false, 0;
      }
      var pos := 0;
      failed := false;
      while pos < |buf|
        invariant pos <= |buf| && Represents(Current()) && !failed
        invariant ParseFrom(start, buf, 0, env) == ParseFrom(Current(), buf, pos, env)
      {
        pos := SkipSeparators(buf, pos);
        if pos == |buf| {
          break;
        }
        var lex := ReadToken(buf, base, unaligned, pos, env);
        match lex
        case More => break;
        case Bad => return true, 0;
        case Comment(next) => pos := next;
        case Found(t, next) =>
          ghost var before := Current();
          var ok, done := Act(t, env.refuse);
          if !ok {
            return true, 0;
          }
          ConsumeRepresents(before, t, env.refuse);
          pos := next;
          if done {
            break;
          }
      }
      consumed := pos;
      ParseFeeds(start, buf, 0, env);
      if StrictSoFar(start) {
        StrictIffNoStray(start, TokensFrom(start, buf, 0, env), env.refuse);
      }
    }
  }

  /** No bit of the bitmap is left over once every container is closed. */
  lemma DepthZero(st: State)
    requires Represents(st)
    ensures st.depth == 0 ==> st.dict == 0
  {
  }
}
