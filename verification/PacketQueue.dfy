/** A connection's outgoing packets: a linked list with a pointer to its last `next` field, partial
    writes, urgent packets, and a close that waits until the list is empty. Default hooks; calls on one
    connection follow each other. */
module PacketQueue {
  import Sequences

  type Byte = bv8

  /** A packet as it was accepted. */
  datatype Payload = Payload(bytes: seq<Byte>, isFile: bool)

  /** What the system's write reports: a number of bytes (0 is no progress), an error after which it is
      to be tried again, an error that ends the connection, or some other error. */
  datatype Outcome = Wrote(n: nat) | Again | Fatal | Unknown

  // As many queued packets as this, and a write that does not finish its packet, count as an attack.
  const SLOWLORIS_LIMIT := 1024

  // ---------------------------------------------------------------------------------------------
  // What the queue stands for

  /** All packets accepted, in queue order; how many are sent in full, and their bytes; how many bytes of
      the next one are sent; whether the connection is to be closed, and whether it is gone. */
  datatype View = View(order: seq<Payload>, done: nat, front: seq<Byte>, part: nat, closing: bool, gone: bool)

  const START := View([], 0, [], 0, false, false)

  predicate Proper(v: View) {
    && v.done <= |v.order|
    && (if v.done == |v.order| then v.part == 0 else v.part <= |v.order[v.done].bytes|)
  }

  /** Packets are waiting. */
  predicate Waiting(v: View) {
    v.done < |v.order|
  }

  /** The packets that are not sent in full. */
  function Queue(v: View): seq<Payload>
    requires Proper(v)
  {
    v.order[v.done..]
  }

  function AllBytes(ps: seq<Payload>): seq<Byte> {
    if ps == [] then [] else ps[0].bytes + AllBytes(ps[1..])
  }

  /** The bytes handed to the socket. */
  function Delivered(v: View): seq<Byte>
    requires Proper(v)
  {
    v.front + if Waiting(v) then v.order[v.done].bytes[..v.part] else []
  }

  /** The bytes still to be sent. */
  function Pending(v: View): seq<Byte>
    requires Proper(v)
  {
    if Waiting(v) then v.order[v.done].bytes[v.part..] + AllBytes(v.order[v.done + 1..]) else []
  }

  lemma {:induction false} FlatConcat(a: seq<Payload>, b: seq<Payload>)
    ensures AllBytes(a + b) == AllBytes(a) + AllBytes(b)
  {
    if a == [] {
      assert a + b == b;
    } else {
      FlatConcat(a[1..], b);
      assert (a + b)[1..] == a[1..] + b;
      Sequences.Regroup(a[0].bytes, AllBytes(a[1..]), AllBytes(b));
    }
  }

  /** The bytes of the packets sent in full are those of the first packets in the queue's order. */
  ghost predicate Faithful(v: View) {
    Proper(v) && v.front == AllBytes(v.order[..v.done])
  }

  /** The bytes delivered followed by the bytes pending are the accepted packets in queue order. */
  lemma DeliveredThenPending(v: View)
    requires Faithful(v)
    ensures Delivered(v) + Pending(v) == AllBytes(v.order)
  {
    if Waiting(v) {
      var p := v.order[v.done];
      assert v.order == v.order[..v.done + 1] + v.order[v.done + 1..];
      FlatConcat(v.order[..v.done + 1], v.order[v.done + 1..]);
      FlatLast(v.order, v.done);
      assert p.bytes == p.bytes[..v.part] + p.bytes[v.part..];
    } else {
      assert v.order[..v.done] == v.order;
    }
  }

  lemma FlatLast(order: seq<Payload>, k: nat)
    requires k < |order|
    ensures AllBytes(order[..k + 1]) == AllBytes(order[..k]) + order[k].bytes
  {
    assert order[..k + 1] == order[..k] + [order[k]];
    FlatEnd(order[..k], order[k]);
  }

  /** A packet joins at the end; an urgent one right behind the packet that is being sent. */
  function Accepted(v: View, p: Payload, urgent: bool): View
    requires Proper(v)
  {
    if urgent && Waiting(v) then v.(order := v.order[..v.done + 1] + [p] + v.order[v.done + 1..])
    else v.(order := v.order + [p])
  }

  function Joined(queue: seq<Payload>, p: Payload, urgent: bool): seq<Payload> {
    if urgent && queue != [] then [queue[0], p] + queue[1..] else queue + [p]
  }

  /** Where a packet joins, and that it does not touch what was sent. */
  lemma AcceptedAt(v: View, p: Payload, urgent: bool)
    requires Proper(v)
    ensures var q, v' := Queue(v), Accepted(v, p, urgent);
      Proper(v') && Queue(v') == Joined(q, p, urgent) && Delivered(v') == Delivered(v)
  {
    var v' := Accepted(v, p, urgent);
    assert v'.order[..v.done] == v.order[..v.done];
    if Waiting(v) {
      assert v'.order[v.done] == v.order[v.done];
    } else {
      assert v'.order[v.done..] == [p];
      assert p.bytes[..0] == [];
    }
  }

  /** Bytes of the packet in front were sent. */
  function Advanced(v: View, n: nat): View
    requires Proper(v) && Waiting(v) && v.part + n <= |v.order[v.done].bytes|
  {
    var p := v.order[v.done];
    if v.part + n == |p.bytes| then v.(done := v.done + 1, front := v.front + p.bytes, part := 0) else v.(part := v.part + n)
  }

  /** The write moves the packet in front: bytes were sent, or it is a file of which none are left. */
  predicate Moves(v: View, o: Outcome)
    requires Proper(v) && Waiting(v)
  {
    o.Wrote? && (o.n > 0 || (v.order[v.done].isFile && v.part == |v.order[v.done].bytes|))
  }

  /** Taken for a slow attack: many packets wait and the one in front was not finished. */
  predicate Attacked(v: View, n: nat)
    requires Proper(v) && Waiting(v) && v.part + n <= |v.order[v.done].bytes|
  {
    n > 0 && Advanced(v, n).done == v.done && |v.order| - v.done >= SLOWLORIS_LIMIT
  }

  /** A flush of a connection on which packets wait. */
  function Flushed(v: View, o: Outcome): View
    requires Proper(v) && Waiting(v) && (o.Wrote? ==> v.part + o.n <= |v.order[v.done].bytes|)
  {
    if o.Fatal? then v.(closing := true, gone := true)
    else if !Moves(v, o) then v
    else if o.n == 0 then Advanced(v, 0)
    else if Attacked(v, o.n) then Advanced(v, o.n).(gone := true)
    else if !Waiting(Advanced(v, o.n)) && v.closing then Advanced(v, o.n).(gone := true)
    else Advanced(v, o.n)
  }

  /** What a flush reports. */
  function FlushResult(v: View, o: Outcome): int
    requires Proper(v) && (!v.gone && Waiting(v) && o.Wrote? ==> v.part + o.n <= |v.order[v.done].bytes|)
  {
    if v.gone then -1
    else if !Waiting(v) then 0
    else if Flushed(v, o).gone then -1
    else if o.Unknown? then 0
    else if o.Wrote? && o.n > 0 then if Waiting(Flushed(v, o)) then 1 else 0
    else 1
  }

  /** `fio_close`. */
  function Closed(v: View): View
    requires Proper(v)
  {
    if v.gone then v else if Waiting(v) then v.(closing := true) else v.(closing := true, gone := true)
  }

  /** The packets that wait after bytes were sent, and the bytes that were. */
  lemma AdvancedAt(v: View, n: nat)
    requires Proper(v) && Waiting(v) && v.part + n <= |v.order[v.done].bytes|
    ensures var q, v' := Queue(v), Advanced(v, n);
      && Proper(v') && Queue(v') == (if v'.done == v.done then q else q[1..])
      && Delivered(v') == Delivered(v) + q[0].bytes[v.part..v.part + n]
  {
    var v', bytes := Advanced(v, n), v.order[v.done].bytes;
    if v'.done == v.done {
      assert bytes[..v.part] + bytes[v.part..v.part + n] == bytes[..v.part + n];
    } else {
      UsedUp(v.front, bytes, v.part);
      if Waiting(v') {
        assert v'.order[v'.done].bytes[..0] == [];
      }
    }
  }

  lemma UsedUp(front: seq<Byte>, bytes: seq<Byte>, part: nat)
    requires part <= |bytes|
    ensures front + bytes == (front + bytes[..part]) + bytes[part..|bytes|]
  {
  }

  // ---------------------------------------------------------------------------------------------
  // What the calls do to the bytes

  /** An ordinary packet's bytes come last; an urgent packet's come right after the rest of the packet that
      is being sent, which it never splits. */
  lemma AcceptedPending(v: View, p: Payload, urgent: bool)
    requires Proper(v)
    ensures Pending(Accepted(v, p, urgent)) ==
      if urgent && Waiting(v) then v.order[v.done].bytes[v.part..] + (p.bytes + AllBytes(v.order[v.done + 1..]))
      else Pending(v) + p.bytes
  {
    var v' := Accepted(v, p, urgent);
    if !Waiting(v) {
      assert v'.order[v.done + 1..] == [];
    } else if urgent {
      assert v'.order[v.done] == v.order[v.done];
      assert v'.order[v.done + 1..] == [p] + v.order[v.done + 1..];
      FlatFirst(p, v.order[v.done + 1..]);
    } else {
      var x, rest := v.order[v.done].bytes[v.part..], v.order[v.done + 1..];
      assert v'.order[v.done] == v.order[v.done];
      assert v'.order[v.done + 1..] == rest + [p];
      FlatEnd(rest, p);
      Sequences.Regroup(x, AllBytes(rest), p.bytes);
    }
  }

  lemma FlatFirst(p: Payload, rest: seq<Payload>)
    ensures AllBytes([p] + rest) == p.bytes + AllBytes(rest)
  {
    assert ([p] + rest)[1..] == rest;
  }

  lemma FlatEnd(front: seq<Payload>, p: Payload)
    ensures AllBytes(front + [p]) == AllBytes(front) + p.bytes
  {
    FlatConcat(front, [p]);
    FlatFirst(p, []);
    assert [p] + [] == [p];
  }

  /** A flush loses packets if and only if the write failed for good or was taken for an attack. */
  lemma FlushLosesIff(v: View, o: Outcome)
    requires Proper(v) && Waiting(v) && !v.gone && (o.Wrote? ==> v.part + o.n <= |v.order[v.done].bytes|)
    ensures Flushed(v, o).gone && Waiting(Flushed(v, o)) <==> o.Fatal? || (o.Wrote? && Attacked(v, o.n))
  {
    if o.Wrote? {
      AdvancedAt(v, o.n);
    }
  }

  /** When a flush sends the last packet of a connection that is to be closed, it closes it if and only if
      it sent bytes: not when what was left was an empty file. */
  lemma ClosesWhenDrainedIff(v: View, o: Outcome)
    requires Proper(v) && Waiting(v) && !v.gone && v.closing && (o.Wrote? ==> v.part + o.n <= |v.order[v.done].bytes|)
    requires !Waiting(Flushed(v, o))
    ensures Flushed(v, o).gone <==> o.Wrote? && o.n > 0
  {
  }

  /** A close sends nothing. */
  lemma ClosedDelivers(v: View)
    requires Proper(v)
    ensures Delivered(Closed(v)) == Delivered(v)
  {
  }

  // ---------------------------------------------------------------------------------------------
  // Histories

  datatype Op = Send(p: Payload, urgent: bool) | Flush(o: Outcome) | Close

  predicate Fits(v: View, op: Op)
    requires Proper(v)
  {
    op.Flush? && op.o.Wrote? && !v.gone && Waiting(v) ==> v.part + op.o.n <= |v.order[v.done].bytes|
  }

  function Did(v: View, op: Op): (v': View)
    requires Proper(v) && Fits(v, op)
    ensures Proper(v') && |v'.order| <= |v.order| + 1
  {
    match op
    case Send(p, urgent) => if v.gone then v else Accepted(v, p, urgent)
    case Flush(o) => if v.gone || !Waiting(v) then v else Flushed(v, o)
    case Close => Closed(v)
  }

  predicate AllFit(v: View, ops: seq<Op>)
    requires Proper(v)
    decreases |ops|
  {
    ops == [] || (Fits(v, ops[0]) && AllFit(Did(v, ops[0]), ops[1..]))
  }

  function DidAll(v: View, ops: seq<Op>): (v': View)
    requires Proper(v) && AllFit(v, ops)
    ensures Proper(v')
    decreases |ops|
  {
    if ops == [] then v else DidAll(Did(v, ops[0]), ops[1..])
  }

  lemma DidKeepsFaithful(v: View, op: Op)
    requires Faithful(v) && Fits(v, op)
    ensures Faithful(Did(v, op))
  {
    var v' := Did(v, op);
    if v'.done != v.done {
      FlatLast(v.order, v.done);
    } else {
      assert v'.order[..v.done] == v.order[..v.done];
    }
  }

  lemma {:induction false} StaysFaithful(v: View, ops: seq<Op>)
    requires Faithful(v) && AllFit(v, ops)
    ensures Faithful(DidAll(v, ops))
    decreases |ops|
  {
    if ops != [] {
      DidKeepsFaithful(v, ops[0]);
      StaysFaithful(Did(v, ops[0]), ops[1..]);
    }
  }

  /** One more call at the end of a history. */
  lemma {:induction false} HistorySnoc(v: View, ops: seq<Op>, op: Op)
    requires Proper(v) && AllFit(v, ops) && Fits(DidAll(v, ops), op)
    ensures AllFit(v, ops + [op]) && DidAll(v, ops + [op]) == Did(DidAll(v, ops), op)
    decreases |ops|
  {
    var all := ops + [op];
    if ops == [] {
      var w := Did(v, op);
      assert all[0] == op && all[1..] == [] && AllFit(w, []) && DidAll(w, []) == w;
    } else {
      assert all[0] == ops[0] && all[1..] == ops[1..] + [op];
      HistorySnoc(Did(v, ops[0]), ops[1..], op);
    }
  }

  /** `fio_close` after any history: a connection on which no packet waits is closed at once, any other is marked;
      no packet moves. */
  lemma CloseDoes(ops: seq<Op>)
    requires AllFit(START, ops)
    ensures AllFit(START, ops + [Close])
    ensures var v, w := DidAll(START, ops), DidAll(START, ops + [Close]);
      && (w.gone <==> v.gone || Queue(v) == []) && (w.closing <==> v.closing || !v.gone)
      && Queue(w) == Queue(v) && Delivered(w) == Delivered(v) && Pending(w) == Pending(v)
  {
    HistorySnoc(START, ops, Close);
  }

  /** `fio_write2` after any history: an open connection takes the packet, at the end or second if it is urgent,
      also when it is to be closed. */
  lemma SendDoes(ops: seq<Op>, p: Payload, urgent: bool)
    requires AllFit(START, ops)
    ensures AllFit(START, ops + [Send(p, urgent)])
    ensures var v, w := DidAll(START, ops), DidAll(START, ops + [Send(p, urgent)]);
      && w.gone == v.gone && w.closing == v.closing && Delivered(w) == Delivered(v)
      && Queue(w) == if v.gone then Queue(v) else if urgent && Queue(v) != [] then [Queue(v)[0], p] + Queue(v)[1..] else Queue(v) + [p]
  {
    HistorySnoc(START, ops, Send(p, urgent));
    AcceptedAt(DidAll(START, ops), p, urgent);
  }

  /** The bytes that the packet in front has left. */
  function FrontLeft(v: View): nat
    requires Proper(v) && Waiting(v)
  {
    |v.order[v.done].bytes| - v.part
  }

  /** The write takes the packet in front off the queue. */
  predicate UsesUp(v: View, o: Outcome)
    requires Proper(v) && Waiting(v)
  {
    o.Wrote? && o.n == FrontLeft(v) && (o.n > 0 || Queue(v)[0].isFile)
  }

  /** `fio_flush` after any history, for an open connection on which packets wait: which bytes and which packet go,
      what becomes of the connection, and what is reported. */
  lemma FlushDoes(ops: seq<Op>, o: Outcome)
    requires AllFit(START, ops) && Fits(DidAll(START, ops), Flush(o))
    requires Waiting(DidAll(START, ops)) && !DidAll(START, ops).gone
    ensures AllFit(START, ops + [Flush(o)])
    ensures var v, w := DidAll(START, ops), DidAll(START, ops + [Flush(o)]);
      && Queue(w) == (if UsesUp(v, o) then Queue(v)[1..] else Queue(v))
      && Delivered(w) == Delivered(v) + (if o.Wrote? then Queue(v)[0].bytes[v.part..v.part + o.n] else [])
      && (w.closing <==> v.closing || o.Fatal?)
      && (w.gone <==> o.Fatal? || (o.Wrote? && o.n > 0 &&
                        if UsesUp(v, o) then |Queue(v)| == 1 && v.closing else |Queue(v)| >= SLOWLORIS_LIMIT))
      && FlushResult(v, o) == (if w.gone then -1 else if o.Unknown? then 0
                              else if o.Wrote? && o.n > 0 && Queue(w) == [] then 0 else 1)
  {
    var v := DidAll(START, ops);
    HistorySnoc(START, ops, Flush(o));
    StaysUnfinished(START, ops);
    hide AllFit, DidAll;
    FlushedAt(v, o);
  }

  lemma FlushedAt(v: View, o: Outcome)
    requires Proper(v) && Unfinished(v) && Waiting(v) && !v.gone && Fits(v, Flush(o))
    ensures var w := Did(v, Flush(o));
      && Queue(w) == (if UsesUp(v, o) then Queue(v)[1..] else Queue(v))
      && Delivered(w) == Delivered(v) + (if o.Wrote? then Queue(v)[0].bytes[v.part..v.part + o.n] else [])
      && (w.closing <==> v.closing || o.Fatal?)
      && (w.gone <==> o.Fatal? || (o.Wrote? && o.n > 0 &&
                        if UsesUp(v, o) then |Queue(v)| == 1 && v.closing else |Queue(v)| >= SLOWLORIS_LIMIT))
      && FlushResult(v, o) == (if w.gone then -1 else if o.Unknown? then 0
                              else if o.Wrote? && o.n > 0 && Queue(w) == [] then 0 else 1)
  {
    if o.Wrote? {
      AdvancedAt(v, o.n);
      assert Delivered(Did(v, Flush(o))) == Delivered(if Moves(v, o) then Advanced(v, o.n) else v);
      assert o.n == 0 ==> Queue(v)[0].bytes[v.part..v.part + o.n] == [];
      hide Delivered;
    }
  }

  /** A flush of a connection that is gone, or on which no packet waits, changes nothing. */
  lemma IdleFlushDoes(ops: seq<Op>, o: Outcome)
    requires AllFit(START, ops) && (DidAll(START, ops).gone || !Waiting(DidAll(START, ops)))
    ensures AllFit(START, ops + [Flush(o)]) && DidAll(START, ops + [Flush(o)]) == DidAll(START, ops)
    ensures FlushResult(DidAll(START, ops), o) == if DidAll(START, ops).gone then -1 else 0
  {
    HistorySnoc(START, ops, Flush(o));
  }

  /** After any calls with any results of the writes, the bytes delivered followed by the bytes pending are
      the accepted packets in queue order. */
  lemma HistoryKeepsBytes(ops: seq<Op>)
    requires AllFit(START, ops)
    ensures var v := DidAll(START, ops); Delivered(v) + Pending(v) == AllBytes(v.order)
  {
    StaysFaithful(START, ops);
    DeliveredThenPending(DidAll(START, ops));
  }

  /** The packet in front has no bytes and is no file. */
  predicate Blocked(v: View)
    requires Proper(v)
  {
    Waiting(v) && !v.order[v.done].isFile && v.order[v.done].bytes == []
  }

  lemma BlockedStep(v: View, op: Op)
    requires Proper(v) && Blocked(v) && Fits(v, op)
    ensures var next := Did(v, op); Blocked(next) && next.done == v.done && Delivered(next) == Delivered(v)
  {
    if op.Send? {
      AcceptedAt(v, op.p, op.urgent);
    }
  }

  /** Such a packet blocks the queue for good: whatever is called and whatever the writes report, no byte is
      sent any more and no packet leaves. */
  lemma {:induction false} EmptyPacketBlocks(v: View, ops: seq<Op>)
    requires Proper(v) && Blocked(v) && AllFit(v, ops)
    ensures var last := DidAll(v, ops); Blocked(last) && last.done == v.done && Delivered(last) == Delivered(v)
    decreases |ops|
  {
    if ops != [] {
      BlockedStep(v, ops[0]);
      EmptyPacketBlocks(Did(v, ops[0]), ops[1..]);
    }
  }

  /** An empty packet that is no file blocks a new connection. */
  lemma BlockedWitness()
    ensures var ops := [Send(Payload([], false), false)]; AllFit(START, ops) && Blocked(DidAll(START, ops))
  {
    var ops := [Send(Payload([], false), false)];
    var v := Did(START, ops[0]);
    assert ops[1..] == [] && AllFit(v, []) && DidAll(v, []) == v;
  }

  /** A packet that is partly sent has bytes left. */
  predicate Unfinished(v: View)
    requires Proper(v)
  {
    v.part == 0 || (Waiting(v) && v.part < |v.order[v.done].bytes|)
  }

  lemma DidKeepsUnfinished(v: View, op: Op)
    requires Proper(v) && Unfinished(v) && Fits(v, op)
    ensures Unfinished(Did(v, op))
  {
  }

  lemma {:induction false} StaysUnfinished(v: View, ops: seq<Op>)
    requires Proper(v) && Unfinished(v) && AllFit(v, ops)
    ensures Unfinished(DidAll(v, ops))
    decreases |ops|
  {
    if ops != [] {
      DidKeepsUnfinished(v, ops[0]);
      StaysUnfinished(Did(v, ops[0]), ops[1..]);
    }
  }

  /** A flush with this outcome of the write sends a byte or takes the packet in front off the queue. */
  predicate Helps(v: View, o: Outcome)
    requires Proper(v)
  {
    Fits(v, Flush(o)) && !(Did(v, Flush(o)).done == v.done && Delivered(Did(v, Flush(o))) == Delivered(v))
  }

  /** A packet with bytes left can send one. */
  lemma OneByteHelps(v: View)
    requires Proper(v) && Waiting(v) && !v.gone && v.part < |v.order[v.done].bytes|
    ensures Helps(v, Wrote(1))
  {
    AdvancedAt(v, 1);
    var v' := Did(v, Flush(Wrote(1)));
    assert Delivered(v') == Delivered(Advanced(v, 1));
    assert |Delivered(v')| == |Delivered(v)| + 1;
    hide Delivered, Did;
  }

  /** An empty file leaves without a byte. */
  lemma EmptyFileHelps(v: View)
    requires Proper(v) && Waiting(v) && !v.gone && v.order[v.done].isFile && v.order[v.done].bytes == []
    ensures Helps(v, Wrote(0))
  {
  }

  lemma NothingHelps(v: View, o: Outcome)
    requires Proper(v) && Blocked(v)
    ensures !Helps(v, o)
  {
    if Fits(v, Flush(o)) {
      BlockedStep(v, Flush(o));
    }
  }

  /** In any history, an open connection on which packets wait is blocked if and only if no outcome of a write
      sends a byte of them or takes one of them off. */
  lemma BlockedIff(ops: seq<Op>)
    requires AllFit(START, ops) && Waiting(DidAll(START, ops)) && !DidAll(START, ops).gone
    ensures Blocked(DidAll(START, ops)) <==> forall o :: !Helps(DidAll(START, ops), o)
  {
    var v := DidAll(START, ops);
    StaysUnfinished(START, ops);
    hide Helps, AllFit, DidAll;
    if Blocked(v) {
      forall o ensures !Helps(v, o) {
        NothingHelps(v, o);
      }
    } else if v.order[v.done].bytes == [] {
      EmptyFileHelps(v);
    } else {
      OneByteHelps(v);
    }
  }

  predicate OnlyFlushes(ops: seq<Op>) {
    forall op | op in ops :: op.Flush?
  }

  /** The flush that leaves no packet waiting sent bytes. */
  predicate DrainedBySending(v: View, ops: seq<Op>)
    requires Proper(v) && AllFit(v, ops)
    decreases |ops|
  {
    ops != [] &&
    if Waiting(Did(v, ops[0])) then DrainedBySending(Did(v, ops[0]), ops[1..])
    else ops[0].Flush? && ops[0].o.Wrote? && ops[0].o.n > 0
  }

  /** A drained connection that is to be closed stays open, whatever the flushes report. */
  lemma {:induction false} DrainedStaysOpen(v: View, ops: seq<Op>)
    requires Proper(v) && !Waiting(v) && AllFit(v, ops) && OnlyFlushes(ops)
    ensures DidAll(v, ops) == v
    decreases |ops|
  {
    if ops != [] {
      assert ops[0] in ops && forall op | op in ops[1..] :: op in ops;
      DrainedStaysOpen(v, ops[1..]);
    }
  }

  /** When the flushes of a connection that is to be closed have sent all its packets, it is closed if and only
      if the flush that sent the last one sent bytes. */
  lemma {:induction false} DrainedClosesIff(v: View, ops: seq<Op>)
    requires Proper(v) && Waiting(v) && !v.gone && v.closing && AllFit(v, ops) && OnlyFlushes(ops)
    requires !Waiting(DidAll(v, ops))
    ensures DidAll(v, ops).gone <==> DrainedBySending(v, ops)
    decreases |ops|
  {
    if ops != [] {
      assert ops[0] in ops && forall op | op in ops[1..] :: op in ops;
      var next := Did(v, ops[0]);
      if !Waiting(next) {
        ClosesWhenDrainedIff(v, ops[0].o);
        DrainedStaysOpen(next, ops[1..]);
      } else if next.gone {
        GoneStays(next, ops[1..]);
      } else {
        DrainedClosesIff(next, ops[1..]);
      }
    }
  }

  /** No write fails for good and none is taken for an attack. */
  predicate Undisturbed(v: View, ops: seq<Op>)
    requires Proper(v) && AllFit(v, ops)
    decreases |ops|
  {
    ops == [] ||
    ((ops[0].Flush? && !v.gone && Waiting(v) ==> !ops[0].o.Fatal? && !(ops[0].o.Wrote? && Attacked(v, ops[0].o.n)))
     && Undisturbed(Did(v, ops[0]), ops[1..]))
  }

  lemma {:induction false} GoneStays(v: View, ops: seq<Op>)
    requires Proper(v) && AllFit(v, ops) && v.gone
    ensures DidAll(v, ops) == v
    decreases |ops|
  {
    if ops != [] {
      GoneStays(Did(v, ops[0]), ops[1..]);
    }
  }

  /** A connection goes with packets unsent if and only if some write failed for good or was taken for an
      attack: `fio_close` itself loses nothing. */
  lemma {:induction false} PacketsLostIff(v: View, ops: seq<Op>)
    requires Proper(v) && AllFit(v, ops) && (v.gone ==> !Waiting(v))
    ensures DidAll(v, ops).gone && Waiting(DidAll(v, ops)) <==> !Undisturbed(v, ops)
    decreases |ops|
  {
    if ops != [] {
      var next := Did(v, ops[0]);
      if ops[0].Flush? && !v.gone && Waiting(v) {
        FlushLosesIff(v, ops[0].o);
      }
      if next.gone && Waiting(next) {
        GoneStays(next, ops[1..]);
      } else {
        PacketsLostIff(next, ops[1..]);
      }
    }
  }

  lemma CloseLosesNothing(ops: seq<Op>)
    requires AllFit(START, ops) && Undisturbed(START, ops)
    ensures DidAll(START, ops).gone ==> Pending(DidAll(START, ops)) == []
  {
    PacketsLostIff(START, ops);
  }

  const TWO := Payload([0, 0], false)

  /** `k` packets of two bytes, and a write that sends one byte. */
  function Flood(k: nat): seq<Op> {
    if k == 0 then [Flush(Wrote(1))] else [Send(TWO, false)] + Flood(k - 1)
  }

  lemma {:induction false} FloodIsDropped(v: View, k: nat)
    requires Proper(v) && v.done == v.part == 0 && !v.gone && (forall q | q in v.order :: q == TWO)
    requires |v.order| + k >= SLOWLORIS_LIMIT
    ensures AllFit(v, Flood(k)) && DidAll(v, Flood(k)).gone && Waiting(DidAll(v, Flood(k)))
    decreases k
  {
    var ops := Flood(k);
    if k == 0 {
      assert v.order[0] in v.order;
      var next := Did(v, ops[0]);
      assert ops[1..] == [];
      assert AllFit(next, []) && DidAll(next, []) == next;
    } else {
      assert ops[1..] == Flood(k - 1);
      FloodIsDropped(Did(v, ops[0]), k - 1);
    }
  }

  /** A thousand and twenty four packets and one short write: the connection is dropped with its packets. */
  lemma FloodWitness()
    ensures AllFit(START, Flood(SLOWLORIS_LIMIT))
    ensures DidAll(START, Flood(SLOWLORIS_LIMIT)).gone && Waiting(DidAll(START, Flood(SLOWLORIS_LIMIT)))
  {
    FloodIsDropped(START, SLOWLORIS_LIMIT);
  }

  /** An empty file sent before the close leaves the connection open for good. */
  lemma StaysOpenWitness(later: Outcome)
    ensures var ops := [Send(Payload([], true), false), Close, Flush(Wrote(0)), Flush(later)];
      AllFit(START, ops) && DidAll(START, ops).closing && !DidAll(START, ops).gone && !Waiting(DidAll(START, ops))
  {
    var ops := [Send(Payload([], true), false), Close, Flush(Wrote(0)), Flush(later)];
    var v1 := Did(START, ops[0]);
    var v2 := Did(v1, ops[1]);
    var v3 := Did(v2, ops[2]);
    assert ops[1..][1..] == ops[2..] && ops[2..][1..] == ops[3..] && ops[3..][1..] == [];
    assert ops[3..][0] == ops[3] && Did(v3, ops[3]) == v3;
    assert AllFit(v3, []) && DidAll(v3, []) == v3;
    assert AllFit(v3, ops[3..]) && DidAll(v3, ops[3..]) == v3;
    assert AllFit(v2, ops[2..]) && DidAll(v2, ops[2..]) == v3;
    assert AllFit(v1, ops[1..]) && DidAll(v1, ops[1..]) == v3;
  }

  // ---------------------------------------------------------------------------------------------
  // The list

  class Packet {
    const data: seq<Byte>
    const isFile: bool
    var next: Packet?
    var offset: nat
    var length: nat
    ghost const start: nat
    ghost const whole: Payload  // the packet as it was accepted

    constructor (data: seq<Byte>, offset: nat, length: nat, isFile: bool)
      requires offset + length <= |data|
      ensures Backed() && whole == Payload(data[offset..offset + length], isFile)
      ensures next == null && Stands(whole, 0)
    {
      this.data, this.isFile := data, isFile;
      next, this.offset, this.length := null, offset, length;
      start, whole := offset, Payload(data[offset..offset + length], isFile);
    }

    /** The buffer holds the packet's bytes. */
    ghost predicate Backed() {
      && whole.isFile == isFile && start + |whole.bytes| <= |data|
      && data[start..start + |whole.bytes|] == whole.bytes
    }

    /** `part` bytes of it are sent. */
    ghost predicate Stands(p: Payload, part: nat)
      reads `offset, `length
    {
      p == whole && part <= |p.bytes| && offset == start + part && length == |p.bytes| - part
    }
  }

  /** The packets stand for the queue; only the one in front may be partly sent. */
  ghost predicate Match(spine: seq<Packet>, queue: seq<Payload>, part: nat)
    reads spine`offset, spine`length
  {
    |spine| == |queue| && forall i :: 0 <= i < |spine| ==> spine[i].Backed() && spine[i].Stands(queue[i], if i == 0 then part else 0)
  }

  lemma MatchInsert(spine: seq<Packet>, queue: seq<Payload>, part: nat, p: Packet)
    requires Match(spine, queue, part) && spine != [] && p.Backed() && p.Stands(p.whole, 0)
    ensures Match([spine[0], p] + spine[1..], [queue[0], p.whole] + queue[1..], part)
  {
  }

  lemma MatchRest(spine: seq<Packet>, queue: seq<Payload>, part: nat)
    requires Match(spine, queue, part) && spine != []
    ensures Match(spine[1..], queue[1..], 0)
  {
  }

  /** What a packet sends next. */
  lemma BytesAt(p: Packet, whole: Payload, part: nat, n: nat)
    requires p.Backed() && p.Stands(whole, part) && n <= p.length
    ensures p.offset + n <= |p.data| && p.data[p.offset..p.offset + n] == whole.bytes[part..part + n]
  {
  }

  class Connection {
    var head: Packet?
    var lastOwner: Packet?  // the packet whose `next` is the last one; null for the head pointer itself
    var packetCount: nat
    var close: nat
    var valid: bool         // the uuid still names this connection
    ghost var spine: seq<Packet>
    ghost var view: View

    /** The packets in the list. */
    ghost predicate Linked()
      reads `head, `spine, spine`next
    {
      && (forall i, j :: 0 <= i < j < |spine| ==> spine[i] != spine[j] && (j == i + 1 ==> spine[i].next == spine[j]))
      && (spine == [] ==> head == null)
      && (spine != [] ==> head == spine[0] && spine[|spine| - 1].next == null)
    }

    /** The tail pointer addresses the last `next`. */
    ghost predicate Tail()
      reads `lastOwner, `spine
    {
      lastOwner == if spine == [] then null else spine[|spine| - 1]
    }

    /** The packets hold what is still to be sent. */
    ghost predicate Holds()
      reads `spine, `view, spine`offset, spine`length
    {
      && Proper(view)
      && (if view.gone then spine == [] else Match(spine, Queue(view), view.part))
    }

    ghost predicate Valid()
      reads this, spine
    {
      && Linked() && Tail() && Holds()
      && packetCount == |spine|
      && valid == !view.gone && (valid ==> close == if view.closing then 1 else 0)
    }

    constructor ()
      ensures Valid() && view == START && spine == []
    {
      head, lastOwner, packetCount, close, valid := null, null, 0, 0, true;
      spine, view := [], START;
    }

    ghost method SetView(next: View)
      requires Linked() && Tail() && Proper(next) && !next.gone && packetCount == |spine| && Match(spine, Queue(next), next.part)
      requires valid && close == if next.closing then 1 else 0
      modifies `view
      ensures Valid() && view == next
    {
      view := next;
    }

    lemma FrontWaits()
      requires Valid() && spine != []
      ensures valid && Waiting(view) && Match(spine, Queue(view), view.part) && head == spine[0]
      ensures head.length == |view.order[view.done].bytes| - view.part
    {
      assert spine[0].Stands(Queue(view)[0], view.part);
    }

    /** What fits the view fits the packet in front. */
    lemma FrontFits(o: Outcome)
      requires Valid() && Fits(view, Op.Flush(o))
      ensures o.Wrote? && head != null ==> o.n <= head.length
    {
      if spine != [] {
        FrontWaits();
      }
    }

    lemma CountWaits()
      requires Valid()
      ensures packetCount <= |view.order|
    {
    }

    // -------------------------------------------------------------------------------------------
    // Accepting a packet

    /** Writes through the tail pointer. */
    method Append(p: Packet, ghost queue: seq<Payload>, ghost part: nat)
      requires Linked() && Tail() && Match(spine, queue, part) && p !in spine && p.next == null && p.Backed() && p.Stands(p.whole, 0)
      modifies `head, `lastOwner, `spine, spine
      ensures Linked() && Tail() && spine == old(spine) + [p] && Match(spine, queue + [p.whole], if queue == [] then 0 else part)
    {
      if lastOwner == null {
        head := p;
      } else {
        lastOwner.next := p;
      }
      lastOwner := p;
      spine := spine + [p];
    }

    /** Puts the packet in front of an empty list. */
    method InsertFirst(p: Packet)
      requires Linked() && Tail() && spine == [] && p.next == null && p.Backed() && p.Stands(p.whole, 0)
      modifies `head, `lastOwner, `spine
      ensures Linked() && Tail() && spine == [p] && Match(spine, [p.whole], 0)
    {
      head := p;
      lastOwner := p;
      spine := [p];
    }

    /** Puts the packet behind the one in front. */
    method InsertSecond(p: Packet, ghost queue: seq<Payload>, ghost part: nat)
      requires Linked() && Tail() && Match(spine, queue, part) && spine != [] && p !in spine && p.Backed() && p.Stands(p.whole, 0)
      modifies `lastOwner, `spine, head`next, p`next
      ensures Linked() && Tail() && spine == [old(spine)[0], p] + old(spine)[1..]
      ensures Match(spine, [queue[0], p.whole] + queue[1..], part)
    {
      hide Match;
      ghost var before := spine;
      MatchInsert(spine, queue, part, p);
      assert |before| > 1 ==> before[0].next == before[1];
      p.next := head.next;
      head.next := p;
      if p.next == null {
        lastOwner := p;
      }
      spine := [before[0], p] + before[1..];
      assert forall i :: 2 <= i < |spine| ==> spine[i] == before[i - 1];
    }

    method Place(p: Packet, urgent: bool, ghost queue: seq<Payload>, ghost part: nat)
      requires Linked() && Tail() && Match(spine, queue, part) && (queue == [] ==> part == 0)
      requires p !in spine && p.next == null && p.Backed() && p.Stands(p.whole, 0)
      modifies `head, `lastOwner, `spine, spine, p`next
      ensures Linked() && Tail() && Match(spine, Joined(queue, p.whole, urgent), part)
      ensures forall q | q in spine :: q in old(spine) || q == p
    {
      if !urgent {
        Append(p, queue, part);
      } else if head == null {
        InsertFirst(p);
        assert queue == [];
      } else {
        InsertSecond(p, queue, part);
      }
    }

    /** Adds the packet to the list, under the socket's lock. */
    method Enqueue(p: Packet, urgent: bool)
      requires Valid() && valid && packetCount < 0xFFFF && p !in spine && p.next == null && p.Stands(p.whole, 0) && p.Backed()
      modifies `head, `lastOwner, `spine, `packetCount, `view, spine, p`next
      ensures Valid() && view == Accepted(old(view), p.whole, urgent) && forall q | q in spine :: q in old(spine) || q == p
    {
      hide Linked, Tail, Delivered, AllBytes;
      AcceptedAt(view, p.whole, urgent);
      Place(p, urgent, Queue(view), view.part);
      packetCount := packetCount + 1;
      SetView(Accepted(view, p.whole, urgent));
    }

    /** `fio_write2`: 0, or -1 when the connection is gone. */
    method Write(data: seq<Byte>, offset: nat, length: nat, isFile: bool, urgent: bool) returns (r: int)
      requires Valid() && offset + length <= |data| && packetCount < 0xFFFF
      modifies this, spine
      ensures Valid()
      ensures r == (if old(view.gone) then -1 else 0) && forall q | q in spine :: q in old(spine) || fresh(q)
      ensures view == if old(view.gone) then old(view) else Accepted(old(view), Payload(data[offset..offset + length], isFile), urgent)
    {
      if !valid {
        return -1;
      }
      var p := new Packet(data, offset, length, isFile);
      Enqueue(p, urgent);
      r := 0;
    }

    // -------------------------------------------------------------------------------------------
    // Sending

    /** The packet in front leaves the list. The code also has a case for a tail pointer to the `next` of a
        packet that another one follows; it cannot happen. */
    method Rotate()
      requires Linked() && Tail() && spine != [] && packetCount == |spine|
      modifies `head, `lastOwner, `packetCount, `spine
      ensures Linked() && Tail() && spine == old(spine)[1..] && packetCount == |spine|
    {
      var packet := head;
      assert |spine| > 1 ==> spine[0].next == spine[1];
      head := packet.next;
      packetCount := packetCount - 1;
      if packet.next == null {
        lastOwner := null;
        packetCount := 0;
      } else if lastOwner == packet {
        assert false;
      }
      spine := spine[1..];
    }

    /** The socket took `n` bytes of the packet in front; a packet that is used up leaves. */
    method SendFront(n: nat, ghost queue: seq<Payload>, ghost part: nat) returns (out: seq<Byte>)
      requires Linked() && Tail() && Match(spine, queue, part) && packetCount == |spine| && spine != [] && n <= head.length
      modifies `head, `lastOwner, `packetCount, `spine, head`offset, head`length
      ensures Linked() && Tail() && packetCount == |spine| && out == queue[0].bytes[part..part + n]
      ensures forall q | q in spine :: q in old(spine)
      ensures if part + n == |queue[0].bytes| then Match(spine, queue[1..], 0) && head != old(head)
              else Match(spine, queue, part + n) && head == old(head)
    {
      BytesAt(head, queue[0], part, n);
      out := head.data[head.offset..head.offset + n];
      Consume(n, queue, part);
      if head.length == 0 {
        MatchRest(spine, queue, part + n);
        Rotate();
      }
    }

    method TakeFront(n: nat) returns (out: seq<Byte>)
      requires Valid() && spine != [] && n <= head.length
      modifies `head, `lastOwner, `packetCount, `spine, `view, head`offset, head`length
      ensures Valid() && view == Advanced(old(view), n) && Delivered(view) == Delivered(old(view)) + out
      ensures (head == old(head) <==> view.done == old(view.done)) && forall q | q in spine :: q in old(spine)
    {
      hide Delivered, Linked, Tail, Match;
      FrontWaits();
      AdvancedAt(view, n);
      ghost var next := Advanced(view, n);
      out := SendFront(n, Queue(view), view.part);
      SetView(next);
    }

    /** The counters of the packet in front move. */
    method Consume(n: nat, ghost queue: seq<Payload>, ghost part: nat)
      requires Linked() && Match(spine, queue, part) && spine != [] && n <= head.length
      modifies head`offset, head`length
      ensures Linked() && Match(spine, queue, part + n) && head.length == old(head.length) - n
    {
      head.length := head.length - n;
      head.offset := head.offset + n;
    }

    /** `fio_sock_write_buffer`. */
    method WriteBuffer(o: Outcome) returns (written: int, out: seq<Byte>)
      requires Valid() && spine != [] && (o.Wrote? ==> o.n <= head.length)
      modifies `head, `lastOwner, `packetCount, `spine, `view, head`offset, head`length
      ensures Valid() && written == (if o.Wrote? then o.n else -1) && Delivered(view) == Delivered(old(view)) + out
      ensures view == if o.Wrote? && o.n > 0 then Advanced(old(view), o.n) else old(view)
      ensures (head == old(head) <==> view.done == old(view.done)) && forall q | q in spine :: q in old(spine)
    {
      written, out := if o.Wrote? then o.n else -1, [];
      if written > 0 {
        out := TakeFront(written);
      }
    }

    /** `fio_sock_sendfile_from_fd`. */
    method SendFile(o: Outcome) returns (written: int, out: seq<Byte>)
      requires Valid() && spine != [] && (o.Wrote? ==> o.n <= head.length)
      modifies `head, `lastOwner, `packetCount, `spine, `view, head`offset, head`length
      ensures Valid() && written == (if o.Wrote? then o.n else -1) && Delivered(view) == Delivered(old(view)) + out
      ensures view == if o.Wrote? && (o.n > 0 || old(head.length) == 0) then Advanced(old(view), o.n) else old(view)
      ensures (head == old(head) <==> view.done == old(view.done)) && forall q | q in spine :: q in old(spine)
    {
      written, out := if o.Wrote? then o.n else -1, [];
      if written < 0 {
        return;
      }
      out := TakeFront(written);
    }

    /** The packet's own way of writing. */
    method SendSome(o: Outcome) returns (written: int, out: seq<Byte>)
      requires Valid() && spine != [] && (o.Wrote? ==> o.n <= head.length)
      modifies `head, `lastOwner, `packetCount, `spine, `view, head`offset, head`length
      ensures Valid() && written == (if o.Wrote? then o.n else -1) && Delivered(view) == Delivered(old(view)) + out
      ensures view == if Moves(old(view), o) then Advanced(old(view), o.n) else old(view)
      ensures (head == old(head) <==> view.done == old(view.done)) && forall q | q in spine :: q in old(spine)
    {
      if head.isFile {
        written, out := SendFile(o);
      } else {
        written, out := WriteBuffer(o);
      }
    }

    // -------------------------------------------------------------------------------------------
    // Closing

    /** `fio_clear_fd`: the uuid becomes invalid and the packets are freed. */
    method ClearFd()
      requires Valid()
      modifies this
      ensures Valid() && view == old(view).(gone := true)
      ensures forall q | q in spine :: q in old(spine)
    {
      head, lastOwner, packetCount, close, valid := null, null, 0, 0, false;
      spine, view := [], view.(gone := true);
    }

    /** `fio_force_close`, with hooks that have nothing to send before the close. */
    method ForceClose()
      requires Valid() && valid
      modifies this
      ensures Valid() && view == old(view).(closing := true, gone := true)
      ensures forall q | q in spine :: q in old(spine)
    {
      if close == 0 {
        close := 1;
      }
      head, lastOwner := null, null;
      head, lastOwner, packetCount, close, valid := null, null, 0, 0, false;
      spine, view := [], view.(closing := true, gone := true);
    }

    /** `fio_close`: packets that wait are sent first. */
    method Close()
      requires Valid()
      modifies this
      ensures Valid() && view == Closed(old(view))
      ensures forall q | q in spine :: q in old(spine)
    {
      if !valid {
        return;
      }
      if head != null {
        close := 1;
        view := view.(closing := true);
        return;
      }
      ForceClose();
    }

    /** `fio_flush`: 1 when data remains, 0 when there is none, -1 on an error or when the connection is
        gone. `sent` of the connection is never changed, so the third test for an attack always holds. */
    method Flush(o: Outcome) returns (r: int, out: seq<Byte>)
      requires Valid() && (o.Wrote? && head != null ==> o.n <= head.length)
      modifies this, spine
      ensures Valid()
      ensures view == if old(view.gone) || !Waiting(old(view)) then old(view) else Flushed(old(view), o)
      ensures forall q | q in spine :: q in old(spine)
      ensures r == FlushResult(old(view), o) && Delivered(view) == Delivered(old(view)) + out
    {
      out := [];
      if !valid {
        return -1, out;
      }
      if head == null {
        return 0, out;
      }
      var packet, tmp := head, 0;
      tmp, out := SendSome(o);
      if tmp <= 0 {
        if o.Fatal? {
          ForceClose();
          return -1, out;
        }
        return if o.Unknown? then 0 else 1, out;
      }
      if packetCount >= SLOWLORIS_LIMIT && head == packet {
        ClearFd();
        return -1, out;
      }
      if head == null && close != 0 {
        ForceClose();
        return -1, out;
      }
      r := if head != null then 1 else 0;
    }

    /** One call of a history. */
    method Perform(op: Op) returns (out: seq<Byte>)
      requires Valid() && Fits(view, op) && packetCount < 0xFFFF
      modifies this, spine
      ensures Valid() && view == Did(old(view), op) && Delivered(view) == Delivered(old(view)) + out
      ensures forall q | q in spine :: q in old(spine) || fresh(q)
    {
      hide Linked, Tail, Match, Delivered, Flushed, FlushResult, Closed;
      out := [];
      match op
      case Send(p, urgent) =>
        AcceptedAt(view, p, urgent);
        assert p.bytes[0..|p.bytes|] == p.bytes;
        var _ := Write(p.bytes, 0, |p.bytes|, p.isFile, urgent);
      case Flush(o) =>
        FrontFits(o);
        var _, more := Flush(o);
        out := more;
      case Close =>
        ClosedDelivers(view);
        Close();
    }

    /** The calls of a history. */
    method PerformAll(ops: seq<Op>) returns (out: seq<Byte>)
      requires Valid() && AllFit(view, ops) && |view.order| + |ops| <= 0xFFFF
      modifies this, spine
      ensures Valid() && view == DidAll(old(view), ops) && Delivered(view) == Delivered(old(view)) + out
      decreases |ops|
    {
      hide Did, Delivered, Fits, Linked, Tail, Match;
      out := [];
      if ops != [] {
        CountWaits();
        out := Perform(ops[0]);
        forall k | 0 <= k < |spine| ensures spine[k] in old(spine) || fresh(spine[k]) {
          assert spine[k] in spine;
        }
        var more := PerformAll(ops[1..]);
        out := out + more;
      }
    }
  }

  /** Runs a history on a connection: it does what the views say, and the socket gets the bytes that count
      as delivered. */
  method RunHistory(ops: seq<Op>) returns (c: Connection, out: seq<Byte>)
    requires AllFit(START, ops) && |ops| < 0xFFFF
    ensures c.Valid() && c.view == DidAll(START, ops) && out == Delivered(c.view)
  {
    assert Delivered(START) == [];
    c := new Connection();
    out := c.PerformAll(ops);
  }
}
