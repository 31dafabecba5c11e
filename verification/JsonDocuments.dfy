/** Whole documents: the parser reads the text of every JSON value whose containers are nested less than 32 deep, and
    reports exactly its parts, in order; it refuses every other one. */
module JsonDocuments {
  import opened Options
  import opened JsonNesting
  import opened JsonParse
  import Scan = JsonScan

  // ---------------------------------------------------------------------------------------------
  // Values, their texts and their events

  /** A value; a text stands between its quotes as it is written there. */
  datatype Value =
    | Word(value: Event) | Text(text: Bytes) | Integer(digits: Bytes)
    | List(items: seq<Value>) | Object(members: seq<Member>)

  datatype Member = Member(name: Bytes, value: Value)

  function Spelling(e: Event): Bytes {
    if e == True then TRUE else if e == False then FALSE else NULL
  }

  function Quote(text: Bytes): Bytes {
    [34] + text + [34]
  }

  /** What stands before an item: white space, and a comma unless it is the first. */
  function Lead(ws: Bytes, first: bool): Bytes {
    if first then ws else ws + [44] + ws
  }

  function Name(name: Bytes, ws: Bytes): Bytes {
    Quote(name) + (ws + [58])
  }

  /** The text of a value in section 2 of RFC 8259, with the same white space `ws` wherever some may stand. */
  function Written(v: Value, ws: Bytes): Bytes
    decreases v
  {
    match v
    case Word(e) => Spelling(e)
    case Text(text) => Quote(text)
    case Integer(digits) => digits
    case List(items) => [91] + WrittenItems(items, true, ws) + (ws + [93])
    case Object(members) => [123] + WrittenMembers(members, true, ws) + (ws + [125])
  }

  function WrittenItems(items: seq<Value>, first: bool, ws: Bytes): Bytes
    decreases items
  {
    if items == [] then [] else Lead(ws, first) + Written(items[0], ws) + WrittenItems(items[1..], false, ws)
  }

  function WrittenMembers(members: seq<Member>, first: bool, ws: Bytes): Bytes
    decreases members
  {
    if members == [] then [] else
    (Lead(ws, first) + Name(members[0].name, ws)) + (ws + Written(members[0].value, ws)) + WrittenMembers(members[1..], false, ws)
  }

  function Events(v: Value): seq<Event>
    decreases v
  {
    match v
    case Word(e) => [e]
    case Text(text) => [Str(text)]
    case Integer(_) => [Number]
    case List(items) => [StartArray] + ItemEvents(items) + [EndArray]
    case Object(members) => [StartObject] + MemberEvents(members) + [EndObject]
  }

  function ItemEvents(items: seq<Value>): seq<Event>
    decreases items
  {
    if items == [] then [] else Events(items[0]) + ItemEvents(items[1..])
  }

  function MemberEvents(members: seq<Member>): seq<Event>
    decreases members
  {
    if members == [] then [] else [Key(members[0].name)] + Events(members[0].value) + MemberEvents(members[1..])
  }

  function Max(a: nat, b: nat): nat {
    if a < b then b else a
  }

  /** How deep containers are nested in a value. */
  function Depth(v: Value): nat
    decreases v
  {
    match v
    case List(items) => 1 + ItemDepth(items)
    case Object(members) => 1 + MemberDepth(members)
    case _ => 0
  }

  function ItemDepth(items: seq<Value>): nat
    decreases items
  {
    if items == [] then 0 else Max(Depth(items[0]), ItemDepth(items[1..]))
  }

  function MemberDepth(members: seq<Member>): nat
    decreases members
  {
    if members == [] then 0 else Max(Depth(members[0].value), MemberDepth(members[1..]))
  }

  // ---------------------------------------------------------------------------------------------
  // What can be written

  /** Between quotes only the last quote closes the text. */
  ghost predicate Quotable(text: Bytes) {
    var s := text + [34];
    Scan.Closes(s, 0, |text|) && forall k: nat | k < |text| :: !Scan.Closes(s, 0, k)
  }

  function DigitsOf(text: Bytes): Bytes {
    if text != [] && text[0] == 45 then text[1..] else text
  }

  /** A decimal number of at most 18 digits, without zeros before it. */
  predicate IsInteger(text: Bytes) {
    var digits := DigitsOf(text);
    0 < |digits| <= 18 && (digits[0] == 48 ==> |digits| == 1) && forall k | 0 <= k < |digits| :: 48 <= digits[k] <= 57
  }

  ghost predicate Writable(v: Value)
    decreases v
  {
    match v
    case Word(e) => e == True || e == False || e == Null
    case Text(text) => Quotable(text)
    case Integer(digits) => IsInteger(digits)
    case List(items) => forall i | 0 <= i < |items| :: Writable(items[i])
    case Object(members) => forall i | 0 <= i < |members| :: Quotable(members[i].name) && Writable(members[i].value)
  }

  predicate IsWhite(ws: Bytes) {
    forall k | 0 <= k < |ws| :: ws[k] == 9 || ws[k] == 10 || ws[k] == 13 || ws[k] == 32
  }

  predicate Separates(lead: Bytes) {
    forall k | 0 <= k < |lead| :: IsSeparator(lead[k])
  }

  /** No byte of a value follows: the end of the buffer, a separator, or the end of a container. */
  predicate Over(buf: Bytes, pos: nat) {
    pos == |buf| || (pos < |buf| && (IsSeparator(buf[pos]) || buf[pos] == 93 || buf[pos] == 125))
  }

  /** The reader of integers reads such a number to its end. */
  ghost predicate ReadsIntegers(env: Env) {
    forall buf: Bytes, pos: nat, text: Bytes | IsInteger(text) && HasWord(buf, pos, text) && Over(buf, pos + |text|) ::
      env.intEnd(buf, pos) == pos + |text|
  }

  ghost predicate RefusesNone(env: Env) {
    forall st :: !env.refuse(st)
  }

  // ---------------------------------------------------------------------------------------------
  // Reading one token

  lemma {:induction false} Parts(buf: Bytes, pos: nat, a: Bytes, b: Bytes)
    requires HasWord(buf, pos, a + b)
    ensures HasWord(buf, pos, a) && HasWord(buf, pos + |a|, b)
  {
    var w := buf[pos..pos + |a + b|];
    assert w[..|a|] == a && w[|a|..] == b;
    assert buf[pos..pos + |a|] == w[..|a|] && buf[pos + |a|..pos + |a| + |b|] == w[|a|..];
  }

  lemma ThreeParts(buf: Bytes, pos: nat, a: Bytes, b: Bytes, c: Bytes)
    requires HasWord(buf, pos, a + b + c)
    ensures HasWord(buf, pos, a) && HasWord(buf, pos + |a|, b) && HasWord(buf, pos + |a| + |b|, c)
    ensures HasWord(buf, pos, a + b) && |a + b + c| == |a| + |b| + |c|
  {
    hide HasWord;
    Parts(buf, pos, a + b, c);
    Parts(buf, pos, a, b);
    assert |a + b| == |a| + |b|;
  }

  lemma Joined(buf: Bytes, pos: nat, a: Bytes, b: Bytes)
    requires HasWord(buf, pos, a) && HasWord(buf, pos + |a|, b)
    ensures HasWord(buf, pos, a + b)
  {
    assert buf[pos..pos + |a + b|] == buf[pos..pos + |a|] + buf[pos + |a|..pos + |a| + |b|];
  }

  lemma {:induction false} SkipsLead(buf: Bytes, pos: nat, lead: Bytes)
    requires HasWord(buf, pos, lead) && Separates(lead)
    requires pos + |lead| < |buf| && !IsSeparator(buf[pos + |lead|])
    ensures AfterSeparators(buf, pos) == pos + |lead|
    decreases lead
  {
    if lead != [] {
      assert lead == [lead[0]] + lead[1..];
      Parts(buf, pos, [lead[0]], lead[1..]);
      assert buf[pos..pos + 1][0] == lead[0];
      SkipsLead(buf, pos + 1, lead[1..]);
    }
  }

  /** The parser is at `pos`, and the token behind the separators is `t`, which ends at `next`. */
  ghost predicate Next(st: State, buf: Bytes, pos: nat, lead: Bytes, env: Env, t: Token, next: nat) {
    && HasWord(buf, pos, lead) && Separates(lead) && pos + |lead| < |buf| && !IsSeparator(buf[pos + |lead|])
    && Lex(buf, pos + |lead|, st.key, env) == Found(t, next)
  }

  lemma ReadsToken(st: State, buf: Bytes, pos: nat, lead: Bytes, env: Env, t: Token, next: nat)
    requires Next(st, buf, pos, lead, env, t, next)
    ensures pos < next <= |buf|
    ensures ParseFrom(st, buf, pos, env) ==
      match Consume(st, t, env.refuse)
      case None => Failed
      case Some(after) => if !t.KeyToken? && after.depth == 0 then Stopped(after, next) else ParseFrom(after, buf, next, env)
  {
    SkipsLead(buf, pos, lead);
    hide Lex, Consume, HasWord, AfterSeparators;
  }

  lemma FirstByteIs(buf: Bytes, pos: nat, word: Bytes)
    requires HasWord(buf, pos, word) && word != []
    ensures pos < |buf| && buf[pos] == word[0]
  {
    assert buf[pos..pos + |word|][0] == buf[pos];
  }

  lemma BracketNext(st: State, buf: Bytes, pos: nat, lead: Bytes, env: Env, bracket: bv8, t: Token)
    requires HasWord(buf, pos, lead + [bracket]) && Separates(lead)
    requires (bracket == 91 && t == OpenArray) || (bracket == 93 && t == CloseArray)
      || (bracket == 123 && t == OpenObject) || (bracket == 125 && t == CloseObject)
    ensures Next(st, buf, pos, lead, env, t, pos + |lead| + 1)
  {
    Parts(buf, pos, lead, [bracket]);
    FirstByteIs(buf, pos + |lead|, [bracket]);
    LexBrackets(buf, pos + |lead|, st.key, env);
    hide Lex;
  }

  lemma WordNext(st: State, buf: Bytes, pos: nat, lead: Bytes, env: Env, e: Event)
    requires HasWord(buf, pos, lead + Spelling(e)) && Separates(lead) && (e == True || e == False || e == Null)
    ensures Next(st, buf, pos, lead, env, Literal(e), pos + |lead| + |Spelling(e)|)
  {
    hide Lex, HasWord, Separates;
    Parts(buf, pos, lead, Spelling(e));
    FirstByteIs(buf, pos + |lead|, Spelling(e));
    LexWords(buf, pos + |lead|, st.key, env);
  }

  lemma FirstOfInteger(digits: Bytes)
    requires IsInteger(digits)
    ensures digits != [] && (digits[0] == 45 || 48 <= digits[0] <= 57)
  {
  }

  lemma NumberByte(b: bv8)
    ensures b == 45 || 48 <= b <= 57 ==> StartsNumber(b) && !IsSeparator(b)
    ensures IsSeparator(b) || b == 93 || b == 125 || b == 0 ==> !IsNumeral(b)
  {
  }

  lemma IntegerEnds(buf: Bytes, pos: nat, env: Env, digits: Bytes)
    requires HasWord(buf, pos, digits) && IsInteger(digits) && ReadsIntegers(env) && Over(buf, pos + |digits|)
    ensures pos < |buf| && env.intEnd(buf, pos) == pos + |digits|
    ensures StartsNumber(buf[pos]) && !IsSeparator(buf[pos]) && ReadsUpTo(buf, pos, pos + |digits|)
  {
    FirstOfInteger(digits);
    FirstByteIs(buf, pos, digits);
    hide HasWord, IsInteger, StartsNumber, IsSeparator, IsNumeral;
    NumberByte(buf[pos]);
    NumberByte(At(buf, pos + |digits|));
  }

  lemma IntegerNext(st: State, buf: Bytes, pos: nat, lead: Bytes, env: Env, digits: Bytes)
    requires HasWord(buf, pos, lead + digits) && Separates(lead) && IsInteger(digits) && ReadsIntegers(env)
    requires Over(buf, pos + |lead + digits|)
    ensures Next(st, buf, pos, lead, env, Literal(Number), pos + |lead| + |digits|)
  {
    hide Lex, HasWord, IsInteger, ReadsIntegers, ReadsUpTo, Over, StartsNumber, IsSeparator, Separates;
    Parts(buf, pos, lead, digits);
    assert |lead + digits| == |lead| + |digits|;
    IntegerEnds(buf, pos + |lead|, env, digits);
    LexNumbers(buf, pos + |lead|, st.key, env);
  }

  lemma {:induction false} RunMoves(buf: Bytes, start: nat, s: Bytes, k: nat)
    requires HasWord(buf, start, s) && k <= |s|
    ensures Scan.Run(buf, start, start + k) == Scan.Run(s, 0, k)
    decreases k
  {
    if k > 0 {
      assert buf[start..start + |s|][k - 1] == buf[start + (k - 1)];
      RunMoves(buf, start, s, k - 1);
    }
  }

  lemma QuoteEnds(buf: Bytes, pos: nat, text: Bytes)
    requires HasWord(buf, pos, Quote(text)) && Quotable(text)
    ensures pos + |text| + 1 < |buf| && EndsString(buf, pos, pos + |text| + 1) && buf[pos + 1..pos + |text| + 1] == text
  {
    var s := text + [34];
    assert Quote(text) == [34] + s;
    Parts(buf, pos, [34], s);
    Parts(buf, pos + 1, text, [34]);
    FirstByteIs(buf, pos, [34]);
    assert |Quote(text)| == |text| + 2;
    var start := pos + 1;
    forall k: nat | k <= |text| ensures Scan.Closes(buf, start, start + k) == Scan.Closes(s, 0, k) {
      RunMoves(buf, start, s, k);
      assert buf[start..start + |s|][k] == buf[start + k];
    }
    hide HasWord;
    forall k | start <= k < start + |text| ensures !Scan.Closes(buf, start, k) {
      assert Scan.Closes(buf, start, start + (k - start)) == Scan.Closes(s, 0, k - start);
    }
  }

  lemma TextNext(st: State, buf: Bytes, pos: nat, lead: Bytes, env: Env, text: Bytes)
    requires HasWord(buf, pos, lead + Quote(text)) && Separates(lead) && Quotable(text) && !st.key
    ensures Next(st, buf, pos, lead, env, StringToken(text), pos + |lead| + |Quote(text)|)
  {
    hide Lex, HasWord, EndsString, Quotable, Separates;
    Parts(buf, pos, lead, Quote(text));
    FirstByteIs(buf, pos + |lead|, Quote(text));
    QuoteEnds(buf, pos + |lead|, text);
    LexStrings(buf, pos + |lead|, st.key, env);
  }

  lemma NameNext(st: State, buf: Bytes, pos: nat, lead: Bytes, env: Env, name: Bytes, ws: Bytes)
    requires HasWord(buf, pos, lead + Name(name, ws)) && Separates(lead) && IsWhite(ws) && Quotable(name) && st.key
    ensures Next(st, buf, pos, lead, env, KeyToken(name), pos + |lead| + |Name(name, ws)|)
  {
    var p := pos + |lead|;
    var end := p + |name| + 1;
    Parts(buf, pos, lead, Name(name, ws));
    Parts(buf, p, Quote(name), ws + [58]);
    FirstByteIs(buf, p, Quote(name));
    QuoteEnds(buf, p, name);
    Parts(buf, end + 1, ws, [58]);
    FirstByteIs(buf, end + 1 + |ws|, [58]);
    forall k | end < k < end + 1 + |ws| ensures IsSeparator(buf[k]) {
      assert buf[end + 1..end + 1 + |ws|][k - end - 1] == buf[k];
    }
    assert KeyEnds(buf, end, end + 1 + |ws|);
    LexStrings(buf, p, st.key, env);
    hide Lex, HasWord, EndsString, KeyEnds;
  }

  // ---------------------------------------------------------------------------------------------
  // Reading a value

  ghost predicate Suits(env: Env) {
    ReadsIntegers(env) && RefusesNone(env)
  }

  /** The state in which a value may begin. */
  ghost predicate Ready(st: State) {
    st.depth < MAX_DEPTH && st.dict < Pow2(st.depth) && !st.key
  }

  /** The state after a value: its events are reported, and the document if it is complete; only an object that
      ends a document leaves the key flag set. */
  function After(st: State, v: Value): State {
    Settle(st.(events := st.events + Events(v), key := v.Object?))
  }

  ghost function Resume(st: State, buf: Bytes, next: nat, env: Env): Outcome
    requires next <= |buf|
  {
    if st.depth == 0 then Stopped(st, next) else ParseFrom(st, buf, next, env)
  }

  ghost predicate Stands(buf: Bytes, pos: nat, text: Bytes) {
    HasWord(buf, pos, text) && Over(buf, pos + |text|)
  }

  lemma LeafSettles(st: State, v: Value)
    requires !v.List? && !v.Object? && !st.key
    ensures After(st, v) == Settle(Emit(st, Events(v)[0])) && After(st, v).depth == st.depth
  {
    assert Events(v) == [Events(v)[0]];
  }

  lemma ReadsWord(st: State, buf: Bytes, pos: nat, lead: Bytes, v: Value, ws: Bytes, env: Env)
    requires Suits(env) && Ready(st) && Writable(v) && Separates(lead) && Stands(buf, pos, lead + Written(v, ws)) && v.Word?
    ensures ParseFrom(st, buf, pos, env) == Resume(After(st, v), buf, pos + |lead + Written(v, ws)|, env)
  {
    hide HasWord, IsInteger, Quotable, ReadsIntegers, Next, ParseFrom, Separates, Over, Pow2, Settle;
    var next := pos + |lead| + |Written(v, ws)|;
    assert next == pos + |lead + Written(v, ws)|;
    WordNext(st, buf, pos, lead, env, v.value);
    ReadsToken(st, buf, pos, lead, env, Literal(v.value), next);
    LeafSettles(st, v);
  }

  lemma ReadsText(st: State, buf: Bytes, pos: nat, lead: Bytes, v: Value, ws: Bytes, env: Env)
    requires Suits(env) && Ready(st) && Writable(v) && Separates(lead) && Stands(buf, pos, lead + Written(v, ws)) && v.Text?
    ensures ParseFrom(st, buf, pos, env) == Resume(After(st, v), buf, pos + |lead + Written(v, ws)|, env)
  {
    hide HasWord, IsInteger, Quotable, ReadsIntegers, Next, ParseFrom, Separates, Over, Pow2, Settle;
    var next := pos + |lead| + |Written(v, ws)|;
    assert next == pos + |lead + Written(v, ws)|;
    TextNext(st, buf, pos, lead, env, v.text);
    ReadsToken(st, buf, pos, lead, env, StringToken(v.text), next);
    LeafSettles(st, v);
  }

  lemma ReadsInteger(st: State, buf: Bytes, pos: nat, lead: Bytes, v: Value, ws: Bytes, env: Env)
    requires Suits(env) && Ready(st) && Writable(v) && Separates(lead) && Stands(buf, pos, lead + Written(v, ws)) && v.Integer?
    ensures ParseFrom(st, buf, pos, env) == Resume(After(st, v), buf, pos + |lead + Written(v, ws)|, env)
  {
    hide HasWord, IsInteger, Quotable, ReadsIntegers, Next, ParseFrom, Separates, Over, Pow2, Settle;
    var next := pos + |lead| + |Written(v, ws)|;
    assert next == pos + |lead + Written(v, ws)|;
    IntegerNext(st, buf, pos, lead, env, v.digits);
    ReadsToken(st, buf, pos, lead, env, Literal(Number), next);
    LeafSettles(st, v);
  }

  /** What the end of a container, or the white space before it, begins with. */
  lemma EndIsOver(buf: Bytes, pos: nat, ws: Bytes, close: bv8)
    requires HasWord(buf, pos, ws + [close]) && IsWhite(ws) && (close == 93 || close == 125 || close == 44)
    ensures Over(buf, pos)
  {
    FirstByteIs(buf, pos, ws + [close]);
  }

  lemma LeadSeparates(ws: Bytes, first: bool)
    requires IsWhite(ws)
    ensures Separates(ws) && Separates(Lead(ws, first))
  {
  }

  lemma ItemIsOver(buf: Bytes, pos: nat, ws: Bytes)
    requires IsWhite(ws) && HasWord(buf, pos, Lead(ws, false))
    ensures Over(buf, pos)
  {
    Parts(buf, pos, ws + [44], ws);
    EndIsOver(buf, pos, ws, 44);
  }

  /** The state inside a container that opens. */
  function Inside(st: State, bit: nat, start: Event): State {
    State(2 * st.dict + bit, st.depth + 1, bit == 1, st.events + [start])
  }

  lemma InsideIs(st: State)
    ensures Inside(st, 0, StartArray).depth == Inside(st, 1, StartObject).depth == st.depth + 1
  {
  }

  lemma Opens(st: State, bit: nat, start: Event)
    requires Ready(st) && st.depth + 1 < MAX_DEPTH && bit < 2
    ensures Settle(Open(st, bit, start)) == Inside(st, bit, start)
    ensures Inside(st, bit, start).dict < Pow2(st.depth + 1)
  {
    Pow2Small(st.depth);
  }

  lemma ReadsOpen(st: State, buf: Bytes, pos: nat, lead: Bytes, env: Env, bracket: bv8)
    requires Suits(env) && Ready(st) && HasWord(buf, pos, lead + [bracket]) && Separates(lead) && (bracket == 91 || bracket == 123)
    ensures ParseFrom(st, buf, pos, env) ==
      if st.depth + 1 >= MAX_DEPTH then Failed
      else if bracket == 91 then ParseFrom(Inside(st, 0, StartArray), buf, pos + |lead| + 1, env)
      else ParseFrom(Inside(st, 1, StartObject), buf, pos + |lead| + 1, env)
  {
    var t := if bracket == 91 then OpenArray else OpenObject;
    hide HasWord, ReadsIntegers, Next, ParseFrom, Separates, Pow2, Settle, Inside;
    BracketNext(st, buf, pos, lead, env, bracket, t);
    ReadsToken(st, buf, pos, lead, env, t, pos + |lead| + 1);
    if st.depth + 1 < MAX_DEPTH {
      Opens(st, 0, StartArray);
      Opens(st, 1, StartObject);
      InsideIs(st);
    }
  }

  /** The state behind the parts of a container. */
  function Filled(st: State, v: Value, events: seq<Event>): State
    requires v.List? || v.Object?
  {
    var inside := if v.List? then Inside(st, 0, StartArray) else Inside(st, 1, StartObject);
    inside.(events := inside.events + events)
  }

  ghost predicate Holds(v: Value, events: seq<Event>) {
    if v.List? then Events(v) == [StartArray] + events + [EndArray] else Events(v) == [StartObject] + events + [EndObject]
  }

  lemma CloseSettles(st: State, v: Value, events: seq<Event>, refuse: State -> bool)
    requires (v.List? || v.Object?) && Holds(v, events)
    ensures Consume(Filled(st, v, events), if v.List? then CloseArray else CloseObject, refuse) == Some(After(st, v))
    ensures After(st, v).depth == st.depth
  {
    hide Events;
    var end := if v.List? then EndArray else EndObject;
    assert Filled(st, v, events).events + [end] == st.events + Events(v);
  }

  lemma ReadsClose(st: State, events: seq<Event>, buf: Bytes, pos: nat, ws: Bytes, env: Env, v: Value)
    requires (v.List? || v.Object?) && Holds(v, events)
    requires HasWord(buf, pos, ws + [if v.List? then 93 else 125]) && IsWhite(ws)
    ensures ParseFrom(Filled(st, v, events), buf, pos, env) == Resume(After(st, v), buf, pos + |ws| + 1, env)
  {
    hide HasWord, Next, ParseFrom, Events, Consume, Filled, After, IsWhite, Separates;
    var at := Filled(st, v, events);
    var t := if v.List? then CloseArray else CloseObject;
    LeadSeparates(ws, true);
    BracketNext(at, buf, pos, ws, env, if v.List? then 93 else 125, t);
    ReadsToken(at, buf, pos, ws, env, t, pos + |ws| + 1);
    CloseSettles(st, v, events, env.refuse);
  }

  /** The text between the brackets of a container. */
  function Inner(v: Value, ws: Bytes): Bytes
    requires v.List? || v.Object?
  {
    if v.List? then WrittenItems(v.items, true, ws) else WrittenMembers(v.members, true, ws)
  }

  lemma WrittenIs(v: Value, ws: Bytes)
    requires v.List? || v.Object?
    ensures Written(v, ws) == [if v.List? then 91 else 123] + Inner(v, ws) + (ws + [if v.List? then 93 else 125])
  {
  }

  lemma ContainerStands(buf: Bytes, pos: nat, lead: Bytes, v: Value, ws: Bytes)
    requires (v.List? || v.Object?) && IsWhite(ws) && HasWord(buf, pos, lead + Written(v, ws))
    ensures var (open, close) := if v.List? then (91, 93) else (123, 125);
      var p := pos + |lead| + 1;
      && HasWord(buf, pos, lead + [open]) && Stands(buf, p, Inner(v, ws)) && HasWord(buf, p + |Inner(v, ws)|, ws + [close])
      && p + |Inner(v, ws)| + |ws| + 1 == pos + |lead + Written(v, ws)|
  {
    hide HasWord, Written, Over, Inner, IsWhite;
    var open, close := if v.List? then 91 else 123, if v.List? then 93 else 125;
    WrittenIs(v, ws);
    Parts(buf, pos, lead, Written(v, ws));
    ThreeParts(buf, pos + |lead|, [open], Inner(v, ws), ws + [close]);
    Joined(buf, pos, lead, [open]);
    EndIsOver(buf, pos + |lead| + 1 + |Inner(v, ws)|, ws, close);
  }

  /** The parser reads a value and goes on behind it; it fails if and only if containers get nested 32 deep. */
  lemma {:induction false} ReadsValue(st: State, buf: Bytes, pos: nat, lead: Bytes, v: Value, ws: Bytes, env: Env)
    requires Suits(env) && Ready(st) && Writable(v) && IsWhite(ws) && Separates(lead) && Stands(buf, pos, lead + Written(v, ws))
    ensures ParseFrom(st, buf, pos, env) ==
      if st.depth + Depth(v) >= MAX_DEPTH then Failed else Resume(After(st, v), buf, pos + |lead + Written(v, ws)|, env)
    decreases v, 1
  {
    if v.List? {
      ReadsList(st, buf, pos, lead, v, ws, env);
    } else if v.Object? {
      ReadsObject(st, buf, pos, lead, v, ws, env);
    } else {
      hide ParseFrom, Resume, After, HasWord, Written;
      match v
      case Word(_) => ReadsWord(st, buf, pos, lead, v, ws, env);
      case Text(_) => ReadsText(st, buf, pos, lead, v, ws, env);
      case Integer(_) => ReadsInteger(st, buf, pos, lead, v, ws, env);
    }
  }

  lemma {:induction false} ReadsList(st: State, buf: Bytes, pos: nat, lead: Bytes, v: Value, ws: Bytes, env: Env)
    requires Suits(env) && Ready(st) && Writable(v) && IsWhite(ws) && Separates(lead) && Stands(buf, pos, lead + Written(v, ws))
    requires v.List?
    ensures ParseFrom(st, buf, pos, env) ==
      if st.depth + Depth(v) >= MAX_DEPTH then Failed else Resume(After(st, v), buf, pos + |lead + Written(v, ws)|, env)
    decreases v, 0
  {
    hide HasWord, Written, WrittenItems, WrittenMembers, ParseFrom, Over, Suits, Pow2, After, IsWhite, Separates, Resume, Quotable;
    ContainerStands(buf, pos, lead, v, ws);
    ReadsOpen(st, buf, pos, lead, env, 91);
    if st.depth + 1 < MAX_DEPTH {
      Opens(st, 0, StartArray);
      ReadsItems(Inside(st, 0, StartArray), buf, pos + |lead| + 1, v.items, true, ws, env);
      ReadsClose(st, ItemEvents(v.items), buf, pos + |lead| + 1 + |Inner(v, ws)|, ws, env, v);
    }
  }

  lemma {:induction false} ReadsObject(st: State, buf: Bytes, pos: nat, lead: Bytes, v: Value, ws: Bytes, env: Env)
    requires Suits(env) && Ready(st) && Writable(v) && IsWhite(ws) && Separates(lead) && Stands(buf, pos, lead + Written(v, ws))
    requires v.Object?
    ensures ParseFrom(st, buf, pos, env) ==
      if st.depth + Depth(v) >= MAX_DEPTH then Failed else Resume(After(st, v), buf, pos + |lead + Written(v, ws)|, env)
    decreases v, 0
  {
    hide HasWord, Written, WrittenItems, WrittenMembers, ParseFrom, Over, Suits, Pow2, After, IsWhite, Separates, Resume, Quotable;
    ContainerStands(buf, pos, lead, v, ws);
    ReadsOpen(st, buf, pos, lead, env, 123);
    if st.depth + 1 < MAX_DEPTH {
      Opens(st, 1, StartObject);
      ReadsMembers(Inside(st, 1, StartObject), buf, pos + |lead| + 1, v.members, true, ws, env);
      ReadsClose(st, MemberEvents(v.members), buf, pos + |lead| + 1 + |Inner(v, ws)|, ws, env, v);
    }
  }

  lemma ItemsAre(items: seq<Value>, first: bool, ws: Bytes)
    requires items != []
    ensures WrittenItems(items, first, ws) == Lead(ws, first) + Written(items[0], ws) + WrittenItems(items[1..], false, ws)
  {
  }

  lemma RestIsOver(buf: Bytes, pos: nat, rest: seq<Value>, ws: Bytes)
    requires IsWhite(ws) && HasWord(buf, pos, WrittenItems(rest, false, ws)) && (rest == [] ==> Over(buf, pos))
    ensures Over(buf, pos)
  {
    hide HasWord, Written, WrittenItems, Over, Lead, IsWhite;
    if rest != [] {
      ItemsAre(rest, false, ws);
      ThreeParts(buf, pos, Lead(ws, false), Written(rest[0], ws), WrittenItems(rest[1..], false, ws));
      ItemIsOver(buf, pos, ws);
    }
  }

  lemma ItemStands(buf: Bytes, pos: nat, items: seq<Value>, first: bool, ws: Bytes)
    requires items != [] && IsWhite(ws) && Stands(buf, pos, WrittenItems(items, first, ws))
    ensures var (item, rest) := (Lead(ws, first) + Written(items[0], ws), WrittenItems(items[1..], false, ws));
      && Stands(buf, pos, item) && Stands(buf, pos + |item|, rest) && |item| + |rest| == |WrittenItems(items, first, ws)|
  {
    hide HasWord, Written, WrittenItems, Over, Lead, IsWhite;
    ItemsAre(items, first, ws);
    ThreeParts(buf, pos, Lead(ws, first), Written(items[0], ws), WrittenItems(items[1..], false, ws));
    NoItems(false, ws);
    assert |Lead(ws, first) + Written(items[0], ws)| == |Lead(ws, first)| + |Written(items[0], ws)|;
    RestIsOver(buf, pos + |Lead(ws, first) + Written(items[0], ws)|, items[1..], ws);
  }

  lemma NoItems(first: bool, ws: Bytes)
    ensures WrittenItems([], first, ws) == [] && WrittenMembers([], first, ws) == []
  {
  }

  /** Inside a container a value changes nothing but the log, and the flag goes back to what the container says. */
  lemma AfterInside(st: State, v: Value)
    requires st.depth > 0
    ensures After(st, v) == st.(events := st.events + Events(v), key := st.dict % 2 == 1)
  {
  }

  lemma {:induction false} ReadsItems(st: State, buf: Bytes, pos: nat, items: seq<Value>, first: bool, ws: Bytes, env: Env)
    requires Suits(env) && Ready(st) && st.depth > 0 && st.dict % 2 == 0 && IsWhite(ws)
    requires forall i | 0 <= i < |items| :: Writable(items[i])
    requires Stands(buf, pos, WrittenItems(items, first, ws))
    ensures ParseFrom(st, buf, pos, env) ==
      if st.depth + ItemDepth(items) >= MAX_DEPTH then Failed
      else ParseFrom(st.(events := st.events + ItemEvents(items)), buf, pos + |WrittenItems(items, first, ws)|, env)
    decreases items
  {
    hide Written, WrittenItems, ParseFrom, Over, Suits, Pow2, Writable, IsWhite, Separates, HasWord, Settle, Events, After, Lead;
    if items == [] {
      NoItems(first, ws);
      assert st.(events := st.events + []) == st;
    } else {
      var item := Lead(ws, first) + Written(items[0], ws);
      ItemStands(buf, pos, items, first, ws);
      LeadSeparates(ws, first);
      ReadsValue(st, buf, pos, Lead(ws, first), items[0], ws, env);
      AfterInside(st, items[0]);
      var after := After(st, items[0]);
      ReadsItems(after, buf, pos + |item|, items[1..], false, ws, env);
      assert after.events + ItemEvents(items[1..]) == st.events + ItemEvents(items);
    }
  }

  lemma MembersAre(members: seq<Member>, first: bool, ws: Bytes)
    requires members != []
    ensures WrittenMembers(members, first, ws) ==
      (Lead(ws, first) + Name(members[0].name, ws)) + (ws + Written(members[0].value, ws)) + WrittenMembers(members[1..], false, ws)
  {
  }

  lemma MoreIsOver(buf: Bytes, pos: nat, rest: seq<Member>, ws: Bytes)
    requires IsWhite(ws) && HasWord(buf, pos, WrittenMembers(rest, false, ws)) && (rest == [] ==> Over(buf, pos))
    ensures Over(buf, pos)
  {
    hide HasWord, Written, WrittenMembers, Over, Lead, Name, IsWhite;
    if rest != [] {
      var name := Name(rest[0].name, ws);
      MembersAre(rest, false, ws);
      ThreeParts(buf, pos, Lead(ws, false) + name, ws + Written(rest[0].value, ws), WrittenMembers(rest[1..], false, ws));
      Parts(buf, pos, Lead(ws, false), name);
      ItemIsOver(buf, pos, ws);
    }
  }

  lemma MemberStands(buf: Bytes, pos: nat, members: seq<Member>, first: bool, ws: Bytes)
    requires members != [] && IsWhite(ws) && Stands(buf, pos, WrittenMembers(members, first, ws))
    ensures var (head, item) := (Lead(ws, first) + Name(members[0].name, ws), ws + Written(members[0].value, ws));
      var rest := WrittenMembers(members[1..], false, ws);
      && HasWord(buf, pos, head) && Stands(buf, pos + |head|, item) && Stands(buf, pos + |head| + |item|, rest)
      && |head| + |item| + |rest| == |WrittenMembers(members, first, ws)|
  {
    hide HasWord, Written, WrittenMembers, Over, Lead, Name, IsWhite;
    var head, item := Lead(ws, first) + Name(members[0].name, ws), ws + Written(members[0].value, ws);
    MembersAre(members, first, ws);
    ThreeParts(buf, pos, head, item, WrittenMembers(members[1..], false, ws));
    NoItems(false, ws);
    MoreIsOver(buf, pos + |head| + |item|, members[1..], ws);
  }

  lemma ReadsName(st: State, buf: Bytes, pos: nat, lead: Bytes, name: Bytes, ws: Bytes, env: Env)
    requires st.key && IsWhite(ws) && Quotable(name) && Separates(lead) && HasWord(buf, pos, lead + Name(name, ws))
    ensures ParseFrom(st, buf, pos, env) == ParseFrom(Emit(st, Key(name)).(key := false), buf, pos + |lead + Name(name, ws)|, env)
  {
    hide ParseFrom, HasWord, Next, Name, Quotable, IsWhite, Separates;
    var next := pos + |lead| + |Name(name, ws)|;
    NameNext(st, buf, pos, lead, env, name, ws);
    ReadsToken(st, buf, pos, lead, env, KeyToken(name), next);
    assert next == pos + |lead + Name(name, ws)|;
  }

  /** The state behind a member. */
  function AfterMember(st: State, member: Member): State {
    st.(events := st.events + ([Key(member.name)] + Events(member.value)))
  }

  lemma MemberSettles(st: State, member: Member)
    requires st.key && st.depth > 0 && st.dict % 2 == 1
    ensures After(Emit(st, Key(member.name)).(key := false), member.value) == AfterMember(st, member)
  {
    AfterInside(Emit(st, Key(member.name)).(key := false), member.value);
    hide Events;
    assert st.events + [Key(member.name)] + Events(member.value) == st.events + ([Key(member.name)] + Events(member.value));
  }

  lemma {:induction false} ReadsMember(st: State, buf: Bytes, pos: nat, lead: Bytes, member: Member, ws: Bytes, env: Env)
    requires Suits(env) && Ready(st.(key := false)) && st.key && st.depth > 0 && st.dict % 2 == 1 && IsWhite(ws)
    requires Quotable(member.name) && Writable(member.value) && Separates(lead)
    requires HasWord(buf, pos, lead + Name(member.name, ws))
    requires Stands(buf, pos + |lead + Name(member.name, ws)|, ws + Written(member.value, ws))
    ensures ParseFrom(st, buf, pos, env) ==
      if st.depth + Depth(member.value) >= MAX_DEPTH then Failed
      else ParseFrom(AfterMember(st, member), buf, pos + |lead + Name(member.name, ws)| + |ws + Written(member.value, ws)|, env)
    decreases member
  {
    hide Written, ParseFrom, Over, Suits, Pow2, Writable, Quotable, Separates, HasWord, After, AfterMember, Name;
    var keyed := Emit(st, Key(member.name)).(key := false);
    LeadSeparates(ws, true);
    ReadsName(st, buf, pos, lead, member.name, ws, env);
    ReadsValue(keyed, buf, pos + |lead + Name(member.name, ws)|, ws, member.value, ws, env);
    MemberSettles(st, member);
    MemberStays(st, member);
  }

  lemma MemberStays(st: State, member: Member)
    ensures var after := AfterMember(st, member); after.depth == st.depth && after.dict == st.dict && after.key == st.key
  {
  }

  lemma EventsJoin(st: State, members: seq<Member>)
    requires members != []
    ensures AfterMember(st, members[0]).events + MemberEvents(members[1..]) == st.events + MemberEvents(members)
  {
    hide Events;
    assert MemberEvents(members) == [Key(members[0].name)] + Events(members[0].value) + MemberEvents(members[1..]);
  }

  lemma {:induction false} ReadsMembers(st: State, buf: Bytes, pos: nat, members: seq<Member>, first: bool, ws: Bytes, env: Env)
    requires Suits(env) && Ready(st.(key := false)) && st.key && st.depth > 0 && st.dict % 2 == 1 && IsWhite(ws)
    requires forall i | 0 <= i < |members| :: Quotable(members[i].name) && Writable(members[i].value)
    requires Stands(buf, pos, WrittenMembers(members, first, ws))
    ensures ParseFrom(st, buf, pos, env) ==
      if st.depth + MemberDepth(members) >= MAX_DEPTH then Failed
      else ParseFrom(st.(events := st.events + MemberEvents(members)), buf, pos + |WrittenMembers(members, first, ws)|, env)
    decreases members
  {
    hide Written, WrittenMembers, ParseFrom, Over, Suits, Pow2, Writable, Quotable, IsWhite, Separates, HasWord, Lead, Name, AfterMember;
    if members == [] {
      NoItems(first, ws);
      assert st.(events := st.events + []) == st;
    } else {
      var head, item := Lead(ws, first) + Name(members[0].name, ws), ws + Written(members[0].value, ws);
      MemberStands(buf, pos, members, first, ws);
      LeadSeparates(ws, first);
      ReadsMember(st, buf, pos, Lead(ws, first), members[0], ws, env);
      var after := AfterMember(st, members[0]);
      MemberStays(st, members[0]);
      ReadsMembers(after, buf, pos + |head| + |item|, members[1..], false, ws, env);
      EventsJoin(st, members);
      assert after.(events := st.events + MemberEvents(members)) == st.(events := st.events + MemberEvents(members));
    }
  }

  /** The text of a value, with any white space in it and separators before it, is read to its end, whatever stands
      behind it, and reported as one complete document, if its containers are nested less than 32 deep; else it is an error. */
  lemma DocumentIsRead(lead: Bytes, v: Value, ws: Bytes, rest: Bytes, env: Env)
    requires Suits(env) && Writable(v) && IsWhite(ws) && Separates(lead) && Over(rest, 0)
    ensures var text := lead + Written(v, ws);
      ParseFrom(INITIAL, text + rest, 0, env) ==
      if Depth(v) >= MAX_DEPTH then Failed else Stopped(State(0, 0, v.Object?, Events(v) + [Json]), |text|)
  {
    var text := lead + Written(v, ws);
    var buf := text + rest;
    hide ParseFrom, Written, Suits, Writable, IsWhite, Separates;
    assert HasWord(buf, 0, text);
    assert Over(buf, |text|);
    hide HasWord, Over;
    ReadsValue(INITIAL, buf, 0, lead, v, ws, env);
    assert [] + Events(v) == Events(v);
  }
}
