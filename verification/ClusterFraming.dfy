/** The frames that carry messages between the processes of a cluster: the writer lays a message out
    in one buffer, the reader takes the frames apart again however the bytes arrive. */
module ClusterFraming {
  import opened Sequences

  type Byte = b: int | 0 <= b < 256
  type UInt32 = x: int | 0 <= x < 0x1_0000_0000
  type Int32 = x: int | -0x8000_0000 <= x < 0x8000_0000

  const HEADER := 16
  const READ_BUFFER := 16384
  const CHANNEL_LIMIT := 1024 * 1024 * 16
  const DATA_LIMIT := 1024 * 1024 * 64

  datatype Message = Message(channel: seq<Byte>, data: seq<Byte>, kind: UInt32, filter: Int32)

  function ToUnsigned(x: Int32): UInt32 {
    if x < 0 then x + 0x1_0000_0000 else x
  }

  function ToSigned(x: UInt32): Int32 {
    if x >= 0x8000_0000 then x - 0x1_0000_0000 else x
  }

  /** Network byte order. */
  function BigEndian(x: UInt32): (b: seq<Byte>)
    ensures |b| == 4 && U32(b) == x
  {
    [x / 256 / 256 / 256, x / 256 / 256 % 256, x / 256 % 256, x % 256]
  }

  function U32(b: seq<Byte>): UInt32
    requires |b| == 4
  {
    ((b[0] as int * 256 + b[1]) * 256 + b[2]) * 256 + b[3]
  }

  lemma LastByte(m: int, x: Byte, n: int, y: Byte)
    requires m * 256 + x == n * 256 + y
    ensures m == n && x == y
  {
  }

  lemma BytesUnique(a: seq<Byte>, b: seq<Byte>)
    requires |a| == |b| == 4 && U32(a) == U32(b)
    ensures a == b
  {
    LastByte((a[0] as int * 256 + a[1]) * 256 + a[2], a[3], (b[0] as int * 256 + b[1]) * 256 + b[2], b[3]);
    LastByte(a[0] as int * 256 + a[1], a[2], b[0] as int * 256 + b[1], b[2]);
    LastByte(a[0] as int, a[1], b[0] as int, b[1]);
    assert a == [a[0], a[1], a[2], a[3]] && b == [b[0], b[1], b[2], b[3]];
  }

  // ---------------------------------------------------------------------------------------------
  // Frames

  function Header(channelLen: UInt32, dataLen: UInt32, kind: UInt32, filter: UInt32): (h: seq<Byte>)
    ensures |h| == HEADER
    ensures U32(h[..4]) == channelLen && U32(h[4..8]) == dataLen && U32(h[8..12]) == kind && U32(h[12..16]) == filter
  {
    var a, b, c, d := BigEndian(channelLen), BigEndian(dataLen), BigEndian(kind), BigEndian(filter);
    var h := a + b + c + d;
    assert h[..4] == a && h[4..8] == b && h[8..12] == c && h[12..16] == d;
    h
  }

  /** What a header says. */
  predicate Says(h: seq<Byte>, channelLen: UInt32, dataLen: UInt32, kind: UInt32, filter: Int32) {
    && |h| == HEADER
    && U32(h[..4]) == channelLen && U32(h[4..8]) == dataLen
    && U32(h[8..12]) == kind && ToSigned(U32(h[12..16])) == filter
  }

  /** A header says one thing only. */
  lemma SaysUnique(g: seq<Byte>, h: seq<Byte>, channelLen: UInt32, dataLen: UInt32, kind: UInt32, filter: Int32)
    requires Says(g, channelLen, dataLen, kind, filter) && Says(h, channelLen, dataLen, kind, filter)
    ensures g == h
  {
    BytesUnique(g[..4], h[..4]);
    BytesUnique(g[4..8], h[4..8]);
    BytesUnique(g[8..12], h[8..12]);
    BytesUnique(g[12..16], h[12..16]);
    assert g == g[..4] + g[4..8] + g[8..12] + g[12..16];
    assert h == h[..4] + h[4..8] + h[8..12] + h[12..16];
  }

  predicate WithinLimits(m: Message) {
    |m.channel| < CHANNEL_LIMIT && |m.data| < DATA_LIMIT
  }

  /** A message on the wire: its lengths, type and filter, then channel and data, each with a NUL. */
  function Frame(m: Message): seq<Byte>
    requires WithinLimits(m)
  {
    Header(|m.channel|, |m.data|, m.kind, ToUnsigned(m.filter)) + m.channel + [0] + m.data + [0]
  }

  /** The first bytes of a frame announce its length. */
  function FrameLength(b: seq<Byte>): nat
    requires |b| >= HEADER
  {
    HEADER + U32(b[..4]) + 1 + U32(b[4..8]) + 1
  }

  predicate IsFrame(b: seq<Byte>) {
    |b| >= HEADER && |b| == FrameLength(b)
  }

  /** Too short to be a frame, as far as can be told. */
  predicate Incomplete(b: seq<Byte>) {
    |b| < HEADER || |b| < FrameLength(b)
  }

  /** What the reader makes of a frame. */
  function MessageOf(b: seq<Byte>): Message
    requires IsFrame(b)
  {
    var ch := U32(b[..4]);
    Message(b[HEADER..HEADER + ch], b[HEADER + ch + 1..|b| - 1], U32(b[8..12]), ToSigned(U32(b[12..16])))
  }

  lemma FrameParses(m: Message)
    requires WithinLimits(m)
    ensures IsFrame(Frame(m)) && MessageOf(Frame(m)) == m
  {
    var f := Frame(m);
    var h := Header(|m.channel|, |m.data|, m.kind, ToUnsigned(m.filter));
    assert f[..4] == h[..4] && f[4..8] == h[4..8] && f[8..12] == h[8..12] && f[12..16] == h[12..16];
    assert f[HEADER..HEADER + |m.channel|] == m.channel;
    assert f[HEADER + |m.channel| + 1..|f| - 1] == m.data;
  }

  /** The bytes of a number in network byte order, the highest first. */
  predicate IsNumber(b: seq<Byte>, x: UInt32) {
    |b| == 4 && x == b[0] as int * 0x100_0000 + b[1] as int * 0x1_0000 + b[2] as int * 0x100 + b[3] as int
  }

  /** Where each part of a message stands on the wire: four numbers, the channel, a NUL, the data, a NUL. */
  lemma FrameLayout(m: Message)
    requires WithinLimits(m)
    ensures var f, n := Frame(m), |m.channel|;
      && |f| == 16 + n + 1 + |m.data| + 1
      && IsNumber(f[..4], n) && IsNumber(f[4..8], |m.data|) && IsNumber(f[8..12], m.kind) && IsNumber(f[12..16], ToUnsigned(m.filter))
      && f[16..16 + n] == m.channel && f[16 + n] == 0 && f[17 + n..|f| - 1] == m.data && f[|f| - 1] == 0
  {
    var f, n := Frame(m), |m.channel|;
    var h := Header(n, |m.data|, m.kind, ToUnsigned(m.filter));
    assert f[..4] == h[..4] && f[4..8] == h[4..8] && f[8..12] == h[8..12] && f[12..16] == h[12..16];
    assert f[16..16 + n] == m.channel && f[17 + n..|f| - 1] == m.data;
  }

  function Frames(ms: seq<Message>): (fs: seq<seq<Byte>>)
    requires forall i :: 0 <= i < |ms| ==> WithinLimits(ms[i])
    ensures |fs| == |ms| && forall i :: 0 <= i < |ms| ==> fs[i] == Frame(ms[i])
  {
    seq(|ms|, i requires 0 <= i < |ms| => Frame(ms[i]))
  }

  /** Frames are self-delimiting: bytes cut into frames with an incomplete rest agree with any other
      cut of the same bytes, as far as they go. */
  lemma {:induction false} SelfDelimiting(got: seq<seq<Byte>>, rest: seq<Byte>, more: seq<Byte>, sent: seq<seq<Byte>>)
    requires forall i :: 0 <= i < |got| ==> IsFrame(got[i])
    requires forall i :: 0 <= i < |sent| ==> IsFrame(sent[i])
    requires Flat(got) + rest + more == Flat(sent) && Incomplete(rest)
    ensures got <= sent
    ensures |got| < |sent| ==> |rest| < |sent[|got|]| && rest + more == Flat(sent[|got|..])
    ensures |got| == |sent| ==> rest == more == []
    ensures more == [] ==> got == sent
    decreases |got|
  {
    if got == [] {
      assert [] + rest == rest;
      if sent != [] {
        StartsAlike(rest + more, rest, sent[0]);
        assert sent[0..] == sent;
      }
    } else {
      var tail := Flat(got[1..]) + rest + more;
      assert got[0] + tail == Flat(sent);
      assert sent != [];
      SameFirst(got[0], tail, sent[0], Flat(sent[1..]));
      SelfDelimiting(got[1..], rest, more, sent[1..]);
      assert sent[1..][|got[1..]|..] == sent[|got|..];
    }
  }

  lemma SameFirst(a: seq<Byte>, x: seq<Byte>, b: seq<Byte>, y: seq<Byte>)
    requires IsFrame(a) && IsFrame(b) && a + x == b + y
    ensures a == b && x == y
  {
    var s := a + x;
    assert a[..4] == s[..4] == b[..4] && a[4..8] == s[4..8] == b[4..8];
    assert a == s[..|a|] && b == s[..|b|];
    assert x == s[|a|..] && y == s[|b|..];
  }

  /** An incomplete beginning of bytes that start with a frame is shorter than that frame. */
  lemma StartsAlike(s: seq<Byte>, rest: seq<Byte>, f: seq<Byte>)
    requires rest <= s && f <= s && IsFrame(f) && Incomplete(rest)
    ensures |rest| < |f|
  {
    if |rest| >= HEADER {
      assert rest[..4] == s[..4] == f[..4] && rest[4..8] == s[4..8] == f[4..8];
    }
  }

  // ---------------------------------------------------------------------------------------------
  // The writer

  /** `memcpy` between buffers. */
  method CopyInto(dest: array<Byte>, at: nat, src: seq<Byte>)
    requires at + |src| <= dest.Length
    modifies dest
    ensures dest[..] == old(dest[..at]) + src + old(dest[at + |src|..])
  {
    forall k | 0 <= k < |src| {
      dest[at + k] := src[k];
    }
  }

  /** Allocates a zeroed message buffer for a channel and data of the given lengths and fills in the
      header. */
  method NewBody(channelLen: UInt32, dataLen: UInt32, kind: UInt32, filter: UInt32) returns (body: array<Byte>)
    ensures fresh(body) && body.Length == HEADER + channelLen + 1 + dataLen + 1
    ensures body[..] == Header(channelLen, dataLen, kind, filter) + Zeros(channelLen + 1 + dataLen + 1)
  {
    var zero: Byte := 0;
    body := new Byte[HEADER + channelLen + 1 + dataLen + 1](_ => zero);
    CopyInto(body, 0, Header(channelLen, dataLen, kind, filter));
  }

  function Zeros(n: nat): (z: seq<Byte>)
    ensures |z| == n && forall k :: 0 <= k < n ==> z[k] == 0
  {
    seq(n, _ => 0)
  }

  lemma Filled(h: seq<Byte>, c: seq<Byte>, d: seq<Byte>, blank: seq<Byte>, half: seq<Byte>, full: seq<Byte>)
    requires blank == h + Zeros(|c| + 1 + |d| + 1)
    requires half == blank[..|h|] + c + blank[|h| + |c|..]
    requires full == half[..|h| + |c| + 1] + d + half[|h| + |c| + 1 + |d|..]
    ensures full == h + c + [0] + d + [0]
  {
    assert half == h + c + Zeros(1 + |d| + 1);
    assert half[..|h| + |c| + 1] == h + c + [0];
    assert half[|h| + |c| + 1 + |d|..] == [0];
  }

  /** The buffer that is sent for a message is its frame. */
  method CreateMessage(m: Message) returns (body: array<Byte>)
    requires WithinLimits(m)
    ensures fresh(body) && body[..] == Frame(m)
  {
    var ch := |m.channel|;
    body := NewBody(ch, |m.data|, m.kind, ToUnsigned(m.filter));
    ghost var blank := body[..];
    CopyInto(body, HEADER, m.channel);
    ghost var half := body[..];
    CopyInto(body, HEADER + ch + 1, m.data);
    Filled(Header(ch, |m.data|, m.kind, ToUnsigned(m.filter)), m.channel, m.data, blank, half, body[..]);
  }

  method NewMessage(channelLen: UInt32, dataLen: UInt32, kind: UInt32, filter: Int32) returns (body: array<Byte>)
    ensures fresh(body) && body.Length == HEADER + channelLen + 1 + dataLen + 1
    ensures Says(body[..HEADER], channelLen, dataLen, kind, filter)
  {
    body := NewBody(channelLen, dataLen, kind, ToUnsigned(filter));
    assert body[..HEADER] == Header(channelLen, dataLen, kind, ToUnsigned(filter));
  }

  // ---------------------------------------------------------------------------------------------
  // The incremental reader

  /** `x + 1` in 32 bits. */
  function Wrapped(x: UInt32): (r: UInt32)
    ensures r == if x == 0xFFFF_FFFF then 0 else x + 1
  {
    (x as int + 1) % 0x1_0000_0000
  }

  predicate HeaderTooLong(h: seq<Byte>)
    requires |h| == HEADER
  {
    U32(h[..4]) >= CHANNEL_LIMIT || U32(h[4..8]) >= DATA_LIMIT
  }

  const ALL_ONES := 0xFFFF_FFFF

  /** A header at which the reader gives up: its tests see the lengths after 1 was added in 32 bits. */
  predicate Refused(h: seq<Byte>)
    requires |h| == HEADER
  {
    CHANNEL_LIMIT <= U32(h[..4]) < ALL_ONES || DATA_LIMIT <= U32(h[4..8]) < ALL_ONES
  }

  /** A length of 2^32 - 1, and no other length over its limit. */
  predicate Slips(h: seq<Byte>)
    requires |h| == HEADER
  {
    var ch, data := U32(h[..4]), U32(h[4..8]);
    (ch == ALL_ONES && (data < DATA_LIMIT || data == ALL_ONES)) || (data == ALL_ONES && ch < CHANNEL_LIMIT)
  }

  /** Every header over the limits is refused, and only those, but for the lengths that wrap around. */
  lemma RefusedIff(h: seq<Byte>)
    requires |h| == HEADER
    ensures Refused(h) <==> HeaderTooLong(h) && !Slips(h)
  {
  }

  /** A channel of 2^32 - 1 bytes is over the limit and is not refused. */
  lemma WrappedLengthWitness()
    ensures var h := Header(ALL_ONES, 0, 0, 0); HeaderTooLong(h) && Slips(h) && !Refused(h)
  {
  }

  lemma Next(front: seq<Byte>, unread: seq<Byte>, h: seq<Byte>)
    requires h <= unread
    ensures front + h <= front + [] + unread
  {
    assert front + [] + unread == front + h + unread[|h|..];
  }

  /** Moving bytes from the front of the unread ones to the end of the message loses none. */
  lemma Moved(front: seq<Byte>, b: seq<Byte>, b': seq<Byte>, at: nat, unread: seq<Byte>, n: nat)
    requires n <= |unread| && at + n <= |b| && b' == b[..at] + unread[..n] + b[at + n..]
    ensures front + b[..at] + unread == front + b'[..at + n] + unread[n..]
    ensures at >= HEADER ==> b'[..HEADER] == b[..HEADER]
  {
    assert unread == unread[..n] + unread[n..];
    assert b'[..at + n] == b[..at] + unread[..n];
  }

  lemma Longer(front: seq<Byte>, partial: seq<Byte>, unread: seq<Byte>, chunk: seq<Byte>)
    ensures front + partial + unread + chunk == front + partial + (unread + chunk)
  {
  }

  class Reader {
    const buffer: array<Byte>
    var length: nat          // bytes in the buffer that wait to be parsed
    var expChannel: UInt32   // bytes still to come of the channel and its NUL
    var expMsg: UInt32       // bytes still to come of the data and its NUL
    var kind: UInt32
    var filter: Int32
    var body: array<Byte>    // the message being put together
    var channelLen: UInt32
    var dataLen: UInt32
    var handled: seq<Message>  // the messages given to the handler
    ghost var received: seq<Byte>
    ghost var raws: seq<seq<Byte>>    // the frames of the handled messages
    ghost var bad: seq<Byte>          // the first header over the limits, if there was one

    constructor ()
      ensures Valid() && received == [] && handled == [] && bad == []
      ensures fresh(buffer) && fresh(body)
    {
      var zero: Byte := 0;
      buffer := new Byte[READ_BUFFER](_ => zero);
      body := new Byte[0];
      length, expChannel, expMsg, kind, filter, channelLen, dataLen := 0, 0, 0, 0, 0, 0, 0;
      handled, received, raws, bad := [], [], [], [];
    }

    ghost predicate Idle()
      reads `expChannel, `expMsg
    {
      expChannel == 0 && expMsg == 0
    }

    /** Keeps every access inside the two buffers. */
    ghost predicate Shape()
      reads `length, `expChannel, `expMsg, `body, `channelLen, `dataLen
    {
      && buffer.Length == READ_BUFFER && length <= READ_BUFFER && buffer != body
      && expChannel <= channelLen + 1 && expMsg <= dataLen + 1
    }

    /** How much of the message's frame has arrived. */
    ghost function Got(): int
      reads `expChannel, `expMsg, `channelLen, `dataLen
    {
      HEADER + (channelLen + 1 - expChannel) + (dataLen + 1 - expMsg)
    }

    /** The buffer of the message being received starts with its header; the channel comes first. */
    ghost predicate Receiving()
      reads `expChannel, `expMsg, `channelLen, `dataLen, `kind, `filter, `body, body
    {
      && body.Length == HEADER + channelLen + 1 + dataLen + 1
      && expChannel <= channelLen + 1 && expMsg <= dataLen + 1
      && (expChannel > 0 ==> expMsg == dataLen + 1)
      && Says(body[..HEADER], channelLen, dataLen, kind, filter)
    }

    ghost predicate HandledAre()
      reads `handled, `raws
    {
      && |handled| == |raws|
      && forall i :: 0 <= i < |raws| ==> IsFrame(raws[i]) && handled[i] == MessageOf(raws[i])
    }

    /** The bytes received are the frames handled, what has arrived of the current one, and the bytes
        of the buffer from `i` on. */
    ghost predicate Accounted(i: nat, partial: seq<Byte>)
      requires Shape()
      reads `length, `received, `raws, `expChannel, `expMsg, `body, `channelLen, `dataLen, buffer
    {
      i <= length && received == Flat(raws) + partial + buffer[i..length]
    }

    /** Between frames, with the bytes before `i` used up. */
    ghost predicate Between(i: nat)
      reads this, buffer
    {
      Shape() && i <= length && (if bad == [] then HandledAre() && Accounted(i, []) else Evidence())
    }

    /** In the middle or at the end of a frame. */
    ghost predicate Within(i: nat)
      reads this, buffer, body
    {
      && Shape() && i <= length && body.Length == HEADER + channelLen + 1 + dataLen + 1
      && (if bad == [] then HandledAre() && Receiving() && Accounted(i, body[..Got()]) else Evidence())
    }

    ghost predicate Valid()
      reads this, buffer, body
    {
      if Idle() then Between(0) else Within(0)
    }

    /** A header over the limits follows the frames handled before it. */
    ghost predicate Evidence()
      reads `bad, `raws, `received
    {
      && |bad| == HEADER && HeaderTooLong(bad) && Flat(raws) + bad <= received
      && forall i :: 0 <= i < |raws| ==> IsFrame(raws[i])
    }

    /** The fields of the header at `i`. */
    method ReadFields(i: nat)
      requires i + HEADER <= buffer.Length
      modifies `expChannel, `expMsg, `kind, `filter, `channelLen, `dataLen
      ensures Says(buffer[i..i + HEADER], channelLen, dataLen, kind, filter)
      ensures expChannel == Wrapped(channelLen) && expMsg == Wrapped(dataLen)
    {
      var h := buffer[i..i + HEADER];
      channelLen, dataLen, kind, filter := U32(h[..4]), U32(h[4..8]), U32(h[8..12]), ToSigned(U32(h[12..16]));
      expChannel, expMsg := Wrapped(channelLen), Wrapped(dataLen);
    }

    /** A header over the limits goes on record. */
    ghost method Record(i: nat)
      requires Shape() && i + HEADER <= length
      requires if bad == [] then HandledAre() && Accounted(i, []) else Evidence()
      modifies `bad
      ensures old(bad) != [] ==> bad == old(bad)
      ensures bad != [] ==> Evidence()
      ensures bad == [] ==> old(bad) == [] && !HeaderTooLong(buffer[i..i + HEADER])
      ensures old(bad) == [] && bad != [] ==> HeaderTooLong(buffer[i..i + HEADER])
    {
      var h := buffer[i..i + HEADER];
      if bad == [] && HeaderTooLong(h) {
        Next(Flat(raws), buffer[i..length], h);
        bad := h;
      }
    }

    /** Parses a header at `i` and allocates the message; `fatal` when a length is over its limit, unless it
        wraps around. */
    method ReadHeader(i: nat) returns (fatal: bool)
      requires Between(i) && Idle() && length - i >= HEADER
      modifies `expChannel, `expMsg, `kind, `filter, `body, `channelLen, `dataLen, `bad
      ensures fatal <==> Refused(buffer[i..i + HEADER])
      ensures fatal ==> bad != [] && Evidence()
      ensures !fatal ==> Within(i + HEADER)
      ensures bad == [] ==> !Idle() && expChannel == channelLen + 1 && expMsg == dataLen + 1
      ensures old(bad) != [] ==> bad == old(bad)
      ensures body == old(body) || fresh(body)
    {
      Record(i);
      ReadFields(i);
      if expChannel >= CHANNEL_LIMIT + 1 || expMsg >= DATA_LIMIT + 1 {
        return true;
      }
      Allocate(i);
      fatal := false;
    }

    method Allocate(i: nat)
      requires Shape() && i + HEADER <= length && expChannel == Wrapped(channelLen) && expMsg == Wrapped(dataLen)
      requires Says(buffer[i..i + HEADER], channelLen, dataLen, kind, filter)
      requires if bad == [] then channelLen < CHANNEL_LIMIT && dataLen < DATA_LIMIT && HandledAre() && Accounted(i, []) else Evidence()
      modifies `body
      ensures fresh(body) && Within(i + HEADER)
    {
      ghost var h := buffer[i..i + HEADER];
      body := NewMessage(channelLen, dataLen, kind, filter);
      SaysUnique(h, body[..HEADER], channelLen, dataLen, kind, filter);
      assert buffer[i..length] == h + buffer[i + HEADER..length];
      assert Flat(raws) + [] == Flat(raws);
    }

    /** Moves `n` bytes from the read buffer at `i` to the message at `at`. */
    method Take(i: nat, at: nat, n: nat)
      requires Shape() && i + n <= length && at + n <= body.Length
      modifies body
      ensures body[..] == old(body[..at]) + buffer[i..i + n] + old(body[at + n..])
      ensures buffer[..] == old(buffer[..])
    {
      CopyInto(body, at, buffer[i..i + n]);
    }

    lemma AfterTake(i: nat, at: nat, n: nat, before: seq<Byte>)
      requires Shape() && i + n <= length && HEADER <= at && at + n <= body.Length == |before|
      requires body[..] == before[..at] + buffer[i..i + n] + before[at + n..]
      requires received == Flat(raws) + before[..at] + buffer[i..length]
      ensures received == Flat(raws) + body[..at + n] + buffer[i + n..length]
      ensures body[..HEADER] == before[..HEADER]
    {
      var unread := buffer[i..length];
      assert unread[..n] == buffer[i..i + n] && unread[n..] == buffer[i + n..length];
      Moved(Flat(raws), before, body[..], at, unread, n);
      assert body[..][..at + n] == body[..at + n];
      assert body[..][..HEADER] == body[..HEADER];
    }

    /** Takes what there is of the channel and its NUL; `more` when it is not all there yet. */
    method TakeChannel(i: nat) returns (next: nat, more: bool)
      requires Within(i) && expChannel > 0
      modifies `expChannel, body
      ensures Within(next) && i <= next
      ensures more ==> next == length && !Idle()
      ensures !more ==> expChannel == 0 && next > i
    {
      ghost var before := body[..];
      var at := HEADER + (channelLen + 1 - expChannel);
      more := expChannel + i > length;
      var n := if more then length - i else expChannel;
      Take(i, at, n);
      if bad == [] {
        AfterTake(i, at, n, before);
      }
      expChannel := expChannel - n;
      next := i + n;
    }

    /** Takes what there is of the data and its NUL. */
    method TakeData(i: nat) returns (next: nat, more: bool)
      requires Within(i) && expMsg > 0 && expChannel == 0
      modifies `expMsg, body
      ensures Within(next) && i <= next
      ensures more ==> next == length && !Idle()
      ensures !more ==> Idle() && next > i
    {
      ghost var before := body[..];
      var at := HEADER + channelLen + 1 + (dataLen + 1 - expMsg);
      more := expMsg + i > length;
      var n := if more then length - i else expMsg;
      Take(i, at, n);
      if bad == [] {
        AfterTake(i, at, n, before);
      }
      expMsg := expMsg - n;
      next := i + n;
    }

    /** The message is complete: the handler gets it. */
    method Deliver(i: nat)
      requires Within(i) && Idle()
      modifies `handled, `raws
      ensures Between(i)
    {
      var channel := body[HEADER..HEADER + channelLen];
      var data := body[HEADER + channelLen + 1..HEADER + channelLen + 1 + dataLen];
      handled := handled + [Message(channel, data, kind, filter)];
      if bad == [] {
        ghost var f := body[..];
        assert f[..HEADER][..4] == f[..4] && f[..HEADER][4..8] == f[4..8];
        assert f[..HEADER][8..12] == f[8..12] && f[..HEADER][12..16] == f[12..16];
        assert body[..HEADER] == f[..HEADER] && body[..Got()] == f;
        assert MessageOf(f) == Message(channel, data, kind, filter);
        FlatSnoc(raws, f);
        raws := raws + [f];
        assert Flat(raws) + [] == Flat(raws);
      }
    }

    /** Between two reads only the beginning of a header waits in the buffer. */
    ghost predicate Settled()
      reads `expChannel, `expMsg, `length
    {
      if Idle() then length < HEADER else length == 0
    }

    /** The bytes received after the frames handled so far: never a whole frame. */
    ghost function Rest(): (rest: seq<Byte>)
      requires Valid() && Settled() && bad == []
      reads this, buffer, body
      ensures received == Flat(raws) + rest && Incomplete(rest)
    {
      if Idle() then
        assert Flat(raws) + [] == Flat(raws);
        buffer[0..length]
      else
        assert buffer[0..length] == [];
        assert body[..Got()][..4] == body[..HEADER][..4] && body[..Got()][4..8] == body[..HEADER][4..8];
        body[..Got()]
    }

    ghost predicate Parsing(i: nat)
      reads this, buffer, body
    {
      if Idle() then Between(i) else Within(i)
    }

    /** One round of the parsing loop: a header if none was read, then channel and data as far as they
        have arrived, then the handler. `stop` when bytes are missing. */
    method ParseOne(i: nat) returns (next: nat, stop: bool, fatal: bool)
      requires Parsing(i)
      modifies this`expChannel, this`expMsg, this`kind, this`filter, this`body, this`channelLen, this`dataLen
      modifies this`handled, this`raws, this`bad, body
      ensures fatal ==> bad != [] && Evidence()
      ensures !fatal ==> Parsing(next) && i <= next
      ensures !fatal && stop ==> if Idle() then length - next < HEADER else next == length
      ensures !fatal && !stop ==> next > i
      ensures body == old(body) || fresh(body)
    {
      next, stop, fatal := i, false, false;
      if expChannel == 0 && expMsg == 0 {
        if length - next < HEADER {
          return next, true, false;
        }
        fatal := ReadHeader(next);
        if fatal {
          return next, true, true;
        }
        next := next + HEADER;
      }
      next, stop := TakeBody(next);
      if !stop {
        Deliver(next);
      }
    }

    method TakeBody(i: nat) returns (next: nat, more: bool)
      requires Within(i)
      modifies `expChannel, `expMsg, body
      ensures Within(next) && i <= next
      ensures more ==> next == length && !Idle()
      ensures !more ==> Idle() && (old(!Idle()) ==> next > i)
    {
      next, more := i, false;
      if expChannel > 0 {
        next, more := TakeChannel(next);
        if more {
          return;
        }
      }
      if expMsg > 0 {
        next, more := TakeData(next);
      }
    }

    /** The bytes of a read join those that wait in the buffer. */
    method Append(chunk: seq<Byte>)
      requires Valid() && |chunk| <= READ_BUFFER - length
      modifies `length, `received, buffer
      ensures Valid() && length == old(length) + |chunk| && received == old(received) + chunk
    {
      ghost var before := buffer[0..length];
      CopyInto(buffer, length, chunk);
      assert buffer[0..length + |chunk|] == before + chunk;
      Longer(Flat(raws), [], before, chunk);
      if bad == [] && !Idle() {
        Longer(Flat(raws), body[..Got()], before, chunk);
      }
      length, received := length + |chunk|, received + chunk;
    }

    /** Moves what is left of the buffer to its front. */
    method Shift(i: nat)
      requires Parsing(i)
      modifies `length, buffer
      ensures Valid() && length == old(length) - i
    {
      MoveDown(i);
      length := length - i;
    }

    method MoveDown(i: nat)
      requires Shape() && i <= length
      modifies buffer
      ensures buffer[0..length - i] == old(buffer[i..length])
    {
      if length > i > 0 {
        CopyInto(buffer, 0, buffer[i..length]);
      }
    }

    /** A read delivered `chunk`: takes in the bytes and handles every message they complete. `fatal`
        stands for the exit on a message over the size limits. */
    method OnData(chunk: seq<Byte>) returns (fatal: bool)
      requires Valid() && |chunk| <= READ_BUFFER - length
      modifies this, buffer, body
      ensures !fatal ==> Valid() && (body == old(body) || fresh(body))
      ensures !fatal && (chunk != [] || old(Settled())) ==> Settled()
      ensures fatal ==> bad != [] && Evidence()
      ensures received == old(received) + chunk
    {
      fatal := false;
      if |chunk| == 0 {
        return;
      }
      Append(chunk);
      var i, stop := 0, false;
      while !stop
        invariant Parsing(i) && received == old(received) + chunk
        invariant body == old(body) || fresh(body)
        invariant stop ==> if Idle() then length - i < HEADER else i == length
        decreases !stop, length - i
      {
        i, stop, fatal := ParseOne(i);
        if fatal {
          return;
        }
        if !stop && length <= i {
          stop := true;
        }
      }
      Shift(i);
    }
  }

  // ---------------------------------------------------------------------------------------------
  // Reading gives back what was written

  lemma DecodedInOrder(raws: seq<seq<Byte>>, rest: seq<Byte>, more: seq<Byte>, ms: seq<Message>)
    requires forall i :: 0 <= i < |raws| ==> IsFrame(raws[i])
    requires forall i :: 0 <= i < |ms| ==> WithinLimits(ms[i])
    requires Flat(raws) + rest + more == Flat(Frames(ms)) && Incomplete(rest)
    ensures |raws| <= |ms| && forall i :: 0 <= i < |raws| ==> MessageOf(raws[i]) == ms[i]
    ensures more == [] ==> |raws| == |ms|
  {
    var sent := Frames(ms);
    forall i | 0 <= i < |sent| ensures IsFrame(sent[i]) && MessageOf(sent[i]) == ms[i] {
      FrameParses(ms[i]);
    }
    SelfDelimiting(raws, rest, more, sent);
  }

  /** No header over the limits can turn up in the frames of messages within them. */
  lemma NoBadHeader(raws: seq<seq<Byte>>, bad: seq<Byte>, tail: seq<Byte>, ms: seq<Message>)
    requires forall i :: 0 <= i < |raws| ==> IsFrame(raws[i])
    requires forall i :: 0 <= i < |ms| ==> WithinLimits(ms[i])
    requires |bad| == HEADER && HeaderTooLong(bad)
    ensures Flat(raws) + bad + tail != Flat(Frames(ms))
  {
    if Flat(raws) + bad + tail == Flat(Frames(ms)) {
      var sent := Frames(ms);
      forall i | 0 <= i < |sent| ensures IsFrame(sent[i]) {
        FrameParses(ms[i]);
      }
      SelfDelimiting(raws, bad, tail, sent);
      HeaderOfFirst(bad, tail, sent[|raws|..], ms[|raws|]);
    }
  }

  lemma HeaderOfFirst(bad: seq<Byte>, tail: seq<Byte>, frames: seq<seq<Byte>>, m: Message)
    requires |bad| == HEADER && WithinLimits(m)
    requires frames != [] && frames[0] == Frame(m) && bad + tail == Flat(frames)
    ensures !HeaderTooLong(bad)
  {
    var s, f := bad + tail, Frame(m);
    var h := Header(|m.channel|, |m.data|, m.kind, ToUnsigned(m.filter));
    assert f[..HEADER] == h;
    assert s[..HEADER] == bad && s[..HEADER] == f[..HEADER];
  }

  /** Whatever part of the frames of `ms` has arrived, however it was cut up: no header is over the
      limits, the messages handled so far are the first ones of `ms`, and once all the bytes have
      arrived they are exactly `ms`. */
  lemma HandledInOrder(r: Reader, ms: seq<Message>, more: seq<Byte>)
    requires r.Valid() && r.Settled()
    requires forall i :: 0 <= i < |ms| ==> WithinLimits(ms[i])
    requires r.received + more == Flat(Frames(ms))
    ensures r.bad == [] && r.handled <= ms
    ensures more == [] ==> r.handled == ms
  {
    if r.bad != [] {
      NeverFatal(r, ms, more);
    } else {
      var rest := r.Rest();
      DecodedInOrder(r.raws, rest, more, ms);
    }
  }

  /** One read of `n` bytes of a stream of frames. */
  method ReadPiece(r: Reader, ms: seq<Message>, pos: nat, n: nat)
    requires forall i :: 0 <= i < |ms| ==> WithinLimits(ms[i])
    requires r.Valid() && r.Settled() && 1 <= n <= READ_BUFFER - r.length
    requires var stream := Flat(Frames(ms)); pos + n <= |stream| && r.received == stream[..pos]
    modifies r, r.buffer, r.body
    ensures r.Valid() && r.Settled() && r.received == Flat(Frames(ms))[..pos + n]
    ensures r.body == old(r.body) || fresh(r.body)
  {
    var stream := Flat(Frames(ms));
    var fatal := r.OnData(stream[pos..pos + n]);
    assert stream[..pos] + stream[pos..pos + n] == stream[..pos + n];
    assert stream == stream[..pos + n] + stream[pos + n..];
    if fatal {
      NeverFatal(r, ms, stream[pos + n..]);
      assert false;
    }
  }

  /** Reads the frames of `ms` in pieces of any sizes (at least one byte and no more than the buffer
      has room for): the handler gets exactly `ms`, in order, and no read is fatal. */
  method ReadAll(ms: seq<Message>, cut: nat -> nat) returns (r: Reader)
    requires forall i :: 0 <= i < |ms| ==> WithinLimits(ms[i])
    ensures r.Valid() && r.handled == ms && r.received == Flat(Frames(ms))
  {
    var stream := Flat(Frames(ms));
    r := new Reader();
    var pos, k := 0, 0;
    while pos < |stream|
      invariant pos <= |stream| && r.Valid() && r.Settled() && r.received == stream[..pos]
      invariant fresh(r) && fresh(r.buffer) && fresh(r.body)
    {
      var n := if cut(k) == 0 then 1 else cut(k);
      if n > READ_BUFFER - r.length {
        n := READ_BUFFER - r.length;
      }
      if n > |stream| - pos {
        n := |stream| - pos;
      }
      ReadPiece(r, ms, pos, n);
      pos, k := pos + n, k + 1;
    }
    assert stream[..pos] == stream && stream + [] == stream;
    HandledInOrder(r, ms, []);
  }

  lemma NeverFatal(r: Reader, ms: seq<Message>, more: seq<Byte>)
    requires r.bad != [] && r.Evidence()
    requires forall i :: 0 <= i < |ms| ==> WithinLimits(ms[i])
    ensures r.received + more != Flat(Frames(ms))
  {
    var front := Flat(r.raws) + r.bad;
    var tail := (r.received + more)[|front|..];
    assert r.received + more == front + tail;
    NoBadHeader(r.raws, r.bad, tail, ms);
  }
}
