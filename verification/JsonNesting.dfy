/** The JSON parser's nesting state machine: a bitmap of open containers, a depth and a key flag,
    driven by the tokens found in a buffer and reported through callbacks. */
module JsonNesting {
  import opened Options

  const MAX_DEPTH := 32
  const WORD := 0x1_0000_0000  // `dict` is a 32 bit word

  /** The parser's callbacks, in the order in which they are made. */
  datatype Event =
    | Key(text: seq<bv8>) | Str(text: seq<bv8>)
    | Null | True | False | Number | Float
    | StartObject | EndObject | StartArray | EndArray
    | Json

  /** What one step of the parser consumes; a comma or white space is nothing. */
  datatype Token =
    | KeyToken(text: seq<bv8>) | StringToken(text: seq<bv8>)
    | Literal(value: Event)
    | OpenObject | CloseObject | OpenArray | CloseArray

  datatype State = State(dict: nat, depth: nat, key: bool, events: seq<Event>)

  const INITIAL := State(0, 0, false, [])

  // ---------------------------------------------------------------------------------------------
  // One token

  function Emit(st: State, e: Event): State {
    st.(events := st.events + [e])
  }

  /** The tests after a token: a document is complete at depth 0, otherwise the innermost container
      decides whether a key comes next. */
  function Settle(st: State): State {
    if st.depth == 0 then Emit(st, Json) else st.(key := st.dict % 2 == 1)
  }

  /** A container opens: its bit is shifted into the 32 bit word. */
  function Open(st: State, bit: nat, start: Event): State {
    Emit(st.(depth := st.depth + 1, dict := (st.dict * 2 + bit) % WORD), start)
  }

  /** The effect of one token, or None when it is an error. `refuse` is the answer of the two
      callbacks that may refuse a container. */
  function Consume(st: State, t: Token, refuse: State -> bool): Option<State> {
    match t
    case KeyToken(text) => Some(Emit(st, Key(text)).(key := false))
    case StringToken(text) => Some(Settle(Emit(st, Str(text))))
    case Literal(value) => Some(Settle(Emit(st, value)))
    case OpenObject =>
      if st.key || st.depth + 1 >= MAX_DEPTH then None else
      var next := Open(st, 1, StartObject);
      if refuse(next) then None else Some(Settle(next))
    case OpenArray =>
      if st.key || st.depth + 1 >= MAX_DEPTH then None else
      var next := Open(st, 0, StartArray);
      if refuse(next) then None else Some(Settle(next))
    case CloseObject =>
      if st.dict % 2 == 0 || st.depth == 0 then None else
      var filled := if st.key then st else Emit(st, Null);  // a key without a value gets null
      Some(Settle(Emit(filled.(depth := st.depth - 1, dict := st.dict / 2), EndObject)))
    case CloseArray =>
      if st.dict % 2 == 1 || st.depth == 0 then None else
      Some(Settle(Emit(st.(depth := st.depth - 1, dict := st.dict / 2), EndArray)))
  }

  function Feed(st: State, tokens: seq<Token>, refuse: State -> bool): Option<State>
    decreases tokens
  {
    if tokens == [] then Some(st) else
    match Consume(st, tokens[0], refuse)
    case None => None
    case Some(next) => Feed(next, tokens[1..], refuse)
  }

  // ---------------------------------------------------------------------------------------------
  // What the event log means: a reference automaton over open containers

  /** An open container; an object is either between members or waits for the value of a key. */
  datatype Frame = InArray | InObject(pending: bool)

  predicate IsValue(e: Event) {
    e.Str? || e.Null? || e.True? || e.False? || e.Number? || e.Float?
  }

  /** The container `frames` after a value begins in it; None where the grammar has no value.
      Without `strict`, a value between the members of an object is let through. */
  function BeginValue(frames: seq<Frame>, strict: bool): Option<seq<Frame>> {
    if frames == [] then Some(frames) else
    var n := |frames| - 1;
    match frames[n]
    case InArray => Some(frames)
    case InObject(pending) =>
      if pending then Some(frames[..n] + [InObject(false)])
      else if strict then None else Some(frames)
  }

  /** One event of sections 4 and 5 of RFC 8259. */
  function ReplayStep(frames: seq<Frame>, e: Event, strict: bool): Option<seq<Frame>> {
    var n := |frames| - 1;
    match e
    case Key(_) =>
      if frames == [] then (if strict then None else Some(frames))
      else if frames[n] == InObject(false) then Some(frames[..n] + [InObject(true)]) else None
    case StartObject =>
      var parent := BeginValue(frames, true);
      if parent == None then None else Some(parent.value + [InObject(false)])
    case StartArray =>
      var parent := BeginValue(frames, true);
      if parent == None then None else Some(parent.value + [InArray])
    case EndObject =>
      if frames != [] && frames[n] == InObject(false) then Some(frames[..n]) else None
    case EndArray =>
      if frames != [] && frames[n] == InArray then Some(frames[..n]) else None
    case Json => if frames == [] then Some(frames) else None
    case _ => BeginValue(frames, strict)
  }

  /** The open containers after a log, outermost first; None if the log breaks the grammar: an end
      without its start, a key outside an object, a close with a key still waiting, a document
      reported while containers are open. */
  function Replay(events: seq<Event>, strict: bool): Option<seq<Frame>> {
    if events == [] then Some([]) else
    var n := |events| - 1;
    match Replay(events[..n], strict)
    case None => None
    case Some(frames) => ReplayStep(frames, events[n], strict)
  }

  /** The bitmap of a stack of containers: a 1 for an object, the innermost in the lowest bit. */
  function Bits(frames: seq<Frame>): nat {
    if frames == [] then 0 else
    2 * Bits(frames[..|frames| - 1]) + if frames[|frames| - 1] == InArray then 0 else 1
  }

  function Pow2(n: nat): nat {
    if n == 0 then 1 else 2 * Pow2(n - 1)
  }

  lemma {:induction false} BitsBound(frames: seq<Frame>)
    ensures Bits(frames) < Pow2(|frames|)
  {
    if frames != [] {
      BitsBound(frames[..|frames| - 1]);
    }
  }

  /** The bitmap, the depth and the key flag stand for exactly the containers the log left open. */
  ghost predicate Represents(st: State) {
    match Replay(st.events, false)
    case None => false
    case Some(frames) =>
      && |frames| == st.depth < MAX_DEPTH
      && st.dict == Bits(frames)
      && (st.depth > 0 ==> (st.key <==> frames[st.depth - 1] == InObject(false)))
  }

  lemma EmitReplays(st: State, e: Event, strict: bool)
    ensures Replay(Emit(st, e).events, strict) ==
      (match Replay(st.events, strict) case None => None case Some(frames) => ReplayStep(frames, e, strict))
  {
    assert (st.events + [e])[..|st.events|] == st.events;
  }

  lemma {:induction false} Pow2Small(n: nat)
    requires n < MAX_DEPTH
    ensures Pow2(n) <= WORD / 2
    decreases MAX_DEPTH - n
  {
    if n == 31 {
      Pow2Exact();
    } else {
      Pow2Small(n + 1);
    }
  }

  lemma Pow2Exact()
    ensures Pow2(31) == WORD / 2
  {
    assert Pow2(8) == 256;
    assert Pow2(16) == 65536;
    assert Pow2(24) == 0x100_0000;
  }

  // ---------------------------------------------------------------------------------------------
  // Every run keeps the bitmap, and the log is a prefix of a balanced word

  /** A string is a key exactly when the key flag is set; a literal reports a scalar. */
  predicate Fits(st: State, t: Token) {
    match t
    case KeyToken(_) => st.key
    case StringToken(_) => !st.key
    case Literal(value) => IsValue(value) && !value.Str?
    case _ => true
  }

  predicate AllFit(st: State, tokens: seq<Token>, refuse: State -> bool)
    decreases tokens
  {
    tokens == [] ||
    (Fits(st, tokens[0]) &&
     match Consume(st, tokens[0], refuse)
     case None => true
     case Some(next) => AllFit(next, tokens[1..], refuse))
  }

  lemma ConsumeRepresents(st: State, t: Token, refuse: State -> bool)
    requires Represents(st) && Fits(st, t) && Consume(st, t, refuse) != None
    ensures Represents(Consume(st, t, refuse).value)
  {
    hide Replay, ReplayStep, Bits;
    match t
    case KeyToken(text) => KeyRepresents(st, text);
    case StringToken(text) => ValueRepresents(st, Str(text));
    case Literal(value) => ValueRepresents(st, value);
    case OpenObject => OpenRepresents(st, 1, StartObject, InObject(false));
    case OpenArray => OpenRepresents(st, 0, StartArray, InArray);
    case CloseObject =>
      if st.key {
        CloseRepresents(st, EndObject);
      } else {
        NullFills(st);
        CloseRepresents(Emit(st, Null).(key := true), EndObject);
      }
    case CloseArray => CloseRepresents(st, EndArray);
  }

  lemma KeyRepresents(st: State, text: seq<bv8>)
    requires Represents(st) && st.key
    ensures Represents(Emit(st, Key(text)).(key := false))
  {
    var frames := Replay(st.events, false).value;
    EmitReplays(st, Key(text), false);
    if frames != [] {
      assert (frames[..|frames| - 1] + [InObject(true)])[..|frames| - 1] == frames[..|frames| - 1];
    }
  }

  /** The null that stands for a missing value answers the key. */
  lemma NullFills(st: State)
    requires Represents(st) && !st.key && st.depth > 0 && st.dict % 2 == 1
    ensures Represents(Emit(st, Null).(key := true))
  {
    var frames := Replay(st.events, false).value;
    var n := |frames| - 1;
    EmitReplays(st, Null, false);
    assert frames[n] == InObject(true);
    assert (frames[..n] + [InObject(false)])[..n] == frames[..n];
  }

  lemma ValueRepresents(st: State, e: Event)
    requires Represents(st) && IsValue(e)
    ensures Represents(Settle(Emit(st, e)))
  {
    var frames := Replay(st.events, false).value;
    var next := Emit(st, e);
    EmitReplays(st, e, false);
    var after := Replay(next.events, false).value;
    assert |after| == |frames| && Bits(after) == Bits(frames) by {
      if frames != [] {
        assert after[..|frames| - 1] == frames[..|frames| - 1];
      }
    }
    SettleRepresents(next, after);
  }

  lemma SettleRepresents(st: State, frames: seq<Frame>)
    requires Replay(st.events, false) == Some(frames) && |frames| == st.depth < MAX_DEPTH
    requires st.dict == Bits(frames)
    requires st.depth > 0 ==> frames[st.depth - 1] != InObject(true)
    ensures Represents(Settle(st))
  {
    if st.depth == 0 {
      EmitReplays(st, Json, false);
    } else {
      LastBit(frames);
      hide Replay, Bits;
    }
  }

  lemma LastBit(frames: seq<Frame>)
    requires frames != []
    ensures Bits(frames) % 2 == if frames[|frames| - 1] == InArray then 0 else 1
  {
  }

  lemma OpenRepresents(st: State, bit: nat, start: Event, frame: Frame)
    requires Represents(st) && !st.key && st.depth + 1 < MAX_DEPTH
    requires (start == StartObject && frame == InObject(false) && bit == 1)
          || (start == StartArray && frame == InArray && bit == 0)
    ensures Represents(Settle(Open(st, bit, start)))
  {
    hide Open, Bits;
    var frames := Replay(st.events, false).value;
    OpenBegins(frames, st);
    var parent := BeginValue(frames, true).value;
    hide Replay, BeginValue, Settle;
    OpenShifts(st, frames, bit, start);
    OpenReplays(st, start, frames, frame);
    PushBits(frames, parent, frame);
    SettleRepresents(Open(st, bit, start), parent + [frame]);
  }

  lemma OpenBegins(frames: seq<Frame>, st: State)
    requires Replay(st.events, false) == Some(frames) && Represents(st) && !st.key
    ensures BeginValue(frames, true) != None
  {
  }

  lemma OpenReplays(st: State, start: Event, frames: seq<Frame>, frame: Frame)
    requires Replay(st.events, false) == Some(frames) && BeginValue(frames, true) != None
    requires (start == StartObject && frame == InObject(false)) || (start == StartArray && frame == InArray)
    ensures Replay(st.events + [start], false) == Some(BeginValue(frames, true).value + [frame])
  {
    EmitReplays(st, start, false);
  }

  /** Shifting the bitmap loses no bit while the depth is below the limit. */
  lemma OpenShifts(st: State, frames: seq<Frame>, bit: nat, start: Event)
    requires |frames| == st.depth < MAX_DEPTH && st.dict == Bits(frames) && bit < 2
    ensures Open(st, bit, start) == State(2 * Bits(frames) + bit, st.depth + 1, st.key, st.events + [start])
  {
    BitsBound(frames);
    Pow2Small(st.depth);
  }

  lemma PushBits(frames: seq<Frame>, parent: seq<Frame>, frame: Frame)
    requires BeginValue(frames, true) == Some(parent)
    ensures |parent| == |frames|
    ensures Bits(parent + [frame]) == 2 * Bits(frames) + if frame == InArray then 0 else 1
  {
    assert (parent + [frame])[..|parent|] == parent;
    if frames != [] {
      assert parent[..|frames| - 1] == frames[..|frames| - 1];
    }
  }

  lemma CloseRepresents(st: State, end: Event)
    requires Represents(st) && st.depth > 0
    requires end == if st.dict % 2 == 1 then EndObject else EndArray
    requires end.EndObject? ==> st.key
    ensures Represents(Settle(Emit(st.(depth := st.depth - 1, dict := st.dict / 2), end)))
  {
    var frames := Replay(st.events, false).value;
    EmitReplays(st, end, false);
    var rest := frames[..st.depth - 1];
    NoPendingBelow(st.events, false, frames);
    SettleRepresents(Emit(st.(depth := st.depth - 1, dict := st.dict / 2), end), rest);
  }

  /** Only the innermost container can be waiting for a value: a container that opens answers the
      key of the one around it. */
  lemma {:induction false} NoPendingBelow(events: seq<Event>, strict: bool, frames: seq<Frame>)
    requires Replay(events, strict) == Some(frames)
    ensures forall i :: 0 <= i < |frames| - 1 ==> frames[i] != InObject(true)
  {
    if events != [] {
      var n := |events| - 1;
      NoPendingBelow(events[..n], strict, Replay(events[..n], strict).value);
    }
  }

  /** Over any tokens of any number of calls: unless there was an error, the state stands for the
      containers left open, at most 31 of them. */
  lemma {:induction false} FeedRepresents(st: State, tokens: seq<Token>, refuse: State -> bool)
    requires Represents(st) && AllFit(st, tokens, refuse) && Feed(st, tokens, refuse) != None
    ensures Represents(Feed(st, tokens, refuse).value)
    decreases tokens
  {
    if tokens != [] {
      ConsumeRepresents(st, tokens[0], refuse);
      FeedRepresents(Consume(st, tokens[0], refuse).value, tokens[1..], refuse);
    }
  }

  // ---------------------------------------------------------------------------------------------
  // Keys and values

  /** The two places where the parser accepts what the grammar does not: a literal or a number where
      a key belongs, and a key outside any object (the key flag is left set when a document that is
      an object ends). */
  predicate Stray(st: State, t: Token) {
    (t.Literal? && st.key && st.depth > 0) || (t.KeyToken? && st.depth == 0)
  }

  predicate NoStray(st: State, tokens: seq<Token>, refuse: State -> bool)
    decreases tokens
  {
    tokens == [] ||
    (!Stray(st, tokens[0]) &&
     match Consume(st, tokens[0], refuse)
     case None => true
     case Some(next) => NoStray(next, tokens[1..], refuse))
  }

  /** The log follows the grammar strictly: every key gets exactly one value before the next key or
      the close of its object, and no value comes without a key. */
  predicate Strict(st: State) {
    Replay(st.events, true) != None
  }

  ghost predicate StrictSoFar(st: State) {
    Replay(st.events, true) == Replay(st.events, false) != None
  }

  lemma StrictEmit(st: State, e: Event)
    requires StrictSoFar(st)
    ensures Replay(Emit(st, e).events, true) == ReplayStep(Replay(st.events, true).value, e, true)
    ensures Replay(Emit(st, e).events, false) == ReplayStep(Replay(st.events, true).value, e, false)
  {
    EmitReplays(st, e, true);
    EmitReplays(st, e, false);
  }

  lemma StrictSettle(st: State)
    ensures !Strict(st) ==> !Strict(Settle(st))
    ensures StrictSoFar(st) && (st.depth == 0 ==> Replay(st.events, true) == Some([])) ==> StrictSoFar(Settle(st))
  {
    EmitReplays(st, Json, true);
    EmitReplays(st, Json, false);
  }

  /** Once the log has left the grammar it stays outside. */
  lemma DeadStaysDead(st: State, t: Token, refuse: State -> bool)
    requires !Strict(st) && Consume(st, t, refuse) != None
    ensures !Strict(Consume(st, t, refuse).value)
  {
    hide Replay;
    match t
    case KeyToken(text) => EmitReplays(st, Key(text), true);
    case StringToken(text) =>
      EmitReplays(st, Str(text), true);
      StrictSettle(Emit(st, Str(text)));
    case Literal(value) =>
      EmitReplays(st, value, true);
      StrictSettle(Emit(st, value));
    case OpenObject =>
      EmitReplays(st, StartObject, true);
      StrictSettle(Open(st, 1, StartObject));
    case OpenArray =>
      EmitReplays(st, StartArray, true);
      StrictSettle(Open(st, 0, StartArray));
    case CloseObject =>
      var filled := if st.key then st else Emit(st, Null);
      EmitReplays(st, Null, true);
      EmitReplays(filled, EndObject, true);
      StrictSettle(Emit(filled.(depth := st.depth - 1, dict := st.dict / 2), EndObject));
    case CloseArray =>
      EmitReplays(st, EndArray, true);
      StrictSettle(Emit(st.(depth := st.depth - 1, dict := st.dict / 2), EndArray));
  }

  lemma StrictValue(st: State, e: Event)
    requires Represents(st) && StrictSoFar(st) && IsValue(e)
    ensures if st.key && st.depth > 0 then !Strict(Settle(Emit(st, e))) else StrictSoFar(Settle(Emit(st, e)))
  {
    var frames := Replay(st.events, true).value;
    StrictEmit(st, e);
    if st.key && st.depth > 0 {
      assert frames[|frames| - 1] == InObject(false);
      assert ReplayStep(frames, e, true) == BeginValue(frames, true) == None;
    } else {
      assert ReplayStep(frames, e, true) == ReplayStep(frames, e, false) != None;
    }
    StrictSettle(Emit(st, e));
  }

  lemma StrictOpen(st: State, bit: nat, start: Event)
    requires StrictSoFar(st) && Represents(st) && !st.key && (start == StartObject || start == StartArray)
    ensures StrictSoFar(Settle(Open(st, bit, start)))
  {
    StrictEmit(st, start);
    StrictSettle(Open(st, bit, start));
  }

  lemma StrictClose(st: State, end: Event)
    requires Represents(st) && StrictSoFar(st) && st.depth > 0
    requires end == (if st.dict % 2 == 1 then EndObject else EndArray) && (end.EndObject? ==> st.key)
    ensures StrictSoFar(Settle(Emit(st.(depth := st.depth - 1, dict := st.dict / 2), end)))
  {
    StrictEmit(st, end);
    StrictSettle(Emit(st.(depth := st.depth - 1, dict := st.dict / 2), end));
  }

  lemma StrictKey(st: State, text: seq<bv8>)
    requires Represents(st) && StrictSoFar(st) && st.key
    ensures var next := Emit(st, Key(text)); if st.depth == 0 then !Strict(next) else StrictSoFar(next)
  {
    StrictEmit(st, Key(text));
  }

  lemma StrictFill(st: State)
    requires Represents(st) && StrictSoFar(st) && !st.key && st.depth > 0 && st.dict % 2 == 1
    ensures StrictSoFar(Emit(st, Null))
  {
    StrictEmit(st, Null);
    var frames := Replay(st.events, true).value;
    assert frames[|frames| - 1] == InObject(true);
  }

  lemma StrictStep(st: State, t: Token, refuse: State -> bool)
    requires Represents(st) && Fits(st, t) && StrictSoFar(st) && Consume(st, t, refuse) != None
    ensures var next := Consume(st, t, refuse).value;
            if Stray(st, t) then !Strict(next) else StrictSoFar(next)
  {
    hide Replay, ReplayStep, Bits;
    match t
    case KeyToken(text) => StrictKey(st, text);
    case StringToken(text) => StrictValue(st, Str(text));
    case Literal(value) => StrictValue(st, value);
    case OpenObject => StrictOpen(st, 1, StartObject);
    case OpenArray => StrictOpen(st, 0, StartArray);
    case CloseObject =>
      if st.key {
        StrictClose(st, EndObject);
      } else {
        StrictFill(st);
        NullFills(st);
        StrictClose(Emit(st, Null).(key := true), EndObject);
      }
    case CloseArray => StrictClose(st, EndArray);
  }

  /** The keys and values of a run without errors follow the grammar exactly when no stray token was
      consumed. */
  lemma {:induction false} StrictIffNoStray(st: State, tokens: seq<Token>, refuse: State -> bool)
    requires Represents(st) && StrictSoFar(st) && AllFit(st, tokens, refuse) && Feed(st, tokens, refuse) != None
    ensures Strict(Feed(st, tokens, refuse).value) <==> NoStray(st, tokens, refuse)
    decreases tokens
  {
    if tokens != [] {
      var next := Consume(st, tokens[0], refuse).value;
      ConsumeRepresents(st, tokens[0], refuse);
      StrictStep(st, tokens[0], refuse);
      if Stray(st, tokens[0]) {
        FeedDead(next, tokens[1..], refuse);
      } else {
        StrictIffNoStray(next, tokens[1..], refuse);
      }
    }
  }

  lemma {:induction false} FeedDead(st: State, tokens: seq<Token>, refuse: State -> bool)
    requires !Strict(st) && Feed(st, tokens, refuse) != None
    ensures !Strict(Feed(st, tokens, refuse).value)
    decreases tokens
  {
    if tokens != [] {
      DeadStaysDead(st, tokens[0], refuse);
      FeedDead(Consume(st, tokens[0], refuse).value, tokens[1..], refuse);
    }
  }

  /** The document `{"a":1 2}` passes without an error, but its key gets two values. */
  lemma StrayValueWitness(refuse: State -> bool)
    requires forall st :: !refuse(st)
    ensures var tokens := [OpenObject, KeyToken([97]), Literal(Number), Literal(Number), CloseObject];
      AllFit(INITIAL, tokens, refuse) && Feed(INITIAL, tokens, refuse) != None
      && !Strict(Feed(INITIAL, tokens, refuse).value)
  {
    var tokens := [OpenObject, KeyToken([97]), Literal(Number), Literal(Number), CloseObject];
    RepresentsInitial();
    var s1 := Consume(INITIAL, tokens[0], refuse).value;
    var s2 := Consume(s1, tokens[1], refuse).value;
    var s3 := Consume(s2, tokens[2], refuse).value;
    var s4 := Consume(s3, tokens[3], refuse).value;
    assert Consume(s4, tokens[4], refuse) != None;
    FeedStep(INITIAL, tokens, refuse);
    FeedStep(s1, tokens[1..], refuse);
    FeedStep(s2, tokens[2..], refuse);
    FeedStep(s3, tokens[3..], refuse);
    FeedStep(s4, tokens[4..], refuse);
    StrictIffNoStray(INITIAL, tokens, refuse);
  }

  /** A parser that has finished `{}` takes the string of the next document for a key. */
  lemma StaleKeyWitness(refuse: State -> bool)
    requires forall st :: !refuse(st)
    ensures var tokens := [OpenObject, CloseObject, KeyToken([97])];
      AllFit(INITIAL, tokens, refuse) && Feed(INITIAL, tokens, refuse) != None
      && !Strict(Feed(INITIAL, tokens, refuse).value)
  {
    var tokens := [OpenObject, CloseObject, KeyToken([97])];
    RepresentsInitial();
    var s1 := Consume(INITIAL, tokens[0], refuse).value;
    var s2 := Consume(s1, tokens[1], refuse).value;
    FeedStep(INITIAL, tokens, refuse);
    FeedStep(s1, tokens[1..], refuse);
    FeedStep(s2, tokens[2..], refuse);
    StrictIffNoStray(INITIAL, tokens, refuse);
  }

  /** What follows a complete document: one that is an object or an array is accepted (unless a callback refuses
      it) if and only if the key flag was clear before the last token, as it is after an array, but not after
      an object that closed between two members. */
  lemma SecondDocumentIff(st: State, t: Token, next: State, open: Token, refuse: State -> bool)
    requires Represents(st) && !t.KeyToken? && Consume(st, t, refuse) == Some(next) && next.depth == 0
    requires open == OpenObject || open == OpenArray
    ensures next.key == st.key && (t == CloseArray ==> !st.key)
    ensures Consume(next, open, refuse) != None
       <==> !st.key && !refuse(Open(next, if open == OpenObject then 1 else 0, if open == OpenObject then StartObject else StartArray))
  {
    var frames := Replay(st.events, false).value;
    hide Replay, Bits;
    if frames != [] {
      LastBit(frames);
    }
  }

  /** After `{}` another object is an error, although the callbacks refuse nothing. */
  lemma SecondDocumentWitness(refuse: State -> bool)
    requires forall st :: !refuse(st)
    ensures Feed(INITIAL, [OpenObject, CloseObject], refuse) != None
    ensures Feed(INITIAL, [OpenObject, CloseObject, OpenObject], refuse) == None
  {
    var tokens := [OpenObject, CloseObject, OpenObject];
    var s1 := Consume(INITIAL, tokens[0], refuse).value;
    var s2 := Consume(s1, tokens[1], refuse).value;
    assert tokens[1..] == [CloseObject, OpenObject] && tokens[1..][1..] == [OpenObject];
    assert [OpenObject, CloseObject][1..] == [CloseObject] && [CloseObject][1..] == [];
    assert s2.key && Consume(s2, OpenObject, refuse) == None;
    assert Feed(s2, [], refuse) == Some(s2) && Feed(s1, [CloseObject], refuse) == Some(s2);
    assert Feed(s2, [OpenObject], refuse) == None && Feed(s1, [CloseObject, OpenObject], refuse) == None;
  }

  lemma RepresentsInitial()
    ensures Represents(INITIAL) && StrictSoFar(INITIAL)
  {
  }

  lemma FeedStep(st: State, tokens: seq<Token>, refuse: State -> bool)
    requires tokens != [] && Fits(st, tokens[0]) && Consume(st, tokens[0], refuse) != None
    ensures var next := Consume(st, tokens[0], refuse).value;
      Feed(st, tokens, refuse) == Feed(next, tokens[1..], refuse)
      && (AllFit(st, tokens, refuse) <==> AllFit(next, tokens[1..], refuse))
      && (NoStray(st, tokens, refuse) <==> !Stray(st, tokens[0]) && NoStray(next, tokens[1..], refuse))
  {
  }

  // ---------------------------------------------------------------------------------------------
  // What the replay says about starts, ends and documents

  /** An event that starts (or ends) a container. */
  predicate Counts(e: Event, start: bool) {
    if start then e == StartObject || e == StartArray else e == EndObject || e == EndArray
  }

  function Count(events: seq<Event>, start: bool): nat {
    if events == [] then 0 else
    Count(events[..|events| - 1], start) + if Counts(events[|events| - 1], start) then 1 else 0
  }

  lemma StepCounts(frames: seq<Frame>, e: Event, strict: bool)
    requires ReplayStep(frames, e, strict) != None
    ensures |ReplayStep(frames, e, strict).value| + (if Counts(e, false) then 1 else 0)
         == |frames| + (if Counts(e, true) then 1 else 0)
    ensures e == Json ==> frames == []
  {
  }

  /** At every point of a log, the starts exceed the ends by the containers still open, and each
      document is reported with none open. */
  lemma {:induction false} LogIsBalancedPrefix(events: seq<Event>, strict: bool, k: nat)
    requires Replay(events, strict) != None && k <= |events|
    ensures Replay(events[..k], strict) != None
    ensures Count(events[..k], true) == Count(events[..k], false) + |Replay(events[..k], strict).value|
    ensures k < |events| && events[k] == Json ==> Count(events[..k], true) == Count(events[..k], false)
    decreases |events|
  {
    hide ReplayStep, Counts;
    if events != [] {
      var n := |events| - 1;
      var before := events[..n];
      StepCounts(Replay(before, strict).value, events[n], strict);
      if k <= n {
        LogIsBalancedPrefix(before, strict, k);
        assert before[..k] == events[..k];
      } else {
        LogIsBalancedPrefix(before, strict, n);
        assert before[..n] == before && events[..k] == events;
      }
      if k < n {
        assert before[k] == events[k];
      }
    }
  }
}
