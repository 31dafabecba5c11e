/** Every step of publishing, delivering, subscribing and unsubscribing keeps the invariant, a part at a
    time: what the step does for the activity itself, and that it leaves alone what others hold. */
module PubSubSteps {
  import opened Options
  import opened PubSub

  // ---------------------------------------------------------------------------------------------
  // What a step leaves alone

  /** The task or packet a step puts into a queue or takes out of it. */
  function IdOf(a: Action): Id {
    if a.Put? || a.Take? || a.SendOut? || a.OutDone? then a.i else 0
  }

  /** Other activities stand where they were, and other tasks and packets are in their queues as before. */
  ghost predicate Frame(s: State, t: Tid, i: Id, s': State) {
    && (forall u: Tid :: u != t ==> PcOf(s', u) == PcOf(s, u))
    && (forall j: Id :: j != i ==> ItemOf(s', j) == ItemOf(s, j))
    && (forall j: Id :: j != i ==> PacketOf(s', j) == PacketOf(s, j))
  }

  /** Other activities, tasks and packets hold what they held. */
  ghost predicate HoldersFrame(h: set<Token>, h': set<Token>, t: Tid, i: Id) {
    && (forall u: Tid, b: bool :: u != t ==> (Held(u, b) in h' <==> Held(u, b) in h))
    && (forall j: Id :: j != i ==> (Task(j) in h' <==> Task(j) in h))
    && (forall j: Id :: j != i ==> (Sent(j) in h' <==> Sent(j) in h))
  }

  /** The marks of other activities on a subscription stay, and it changes its channel, is unlinked or is
      silenced only by the one that joins or unsubscribes it. */
  ghost predicate UseFrame(sub: Subscription, sub': Subscription, t: Tid) {
    && (forall u: Tid :: u != t ==>
          && (sub'.lock == Some(u) <==> sub.lock == Some(u))
          && (sub'.phase == New(u) <==> sub.phase == New(u)) && (sub'.phase == Leaves(u) <==> sub.phase == Leaves(u))
          && (sub'.end == Due(u) <==> sub.end == Due(u)) && (sub'.end == Parting(u) <==> sub.end == Parting(u)))
    && (sub'.parent == sub.parent || sub.phase == New(t) || sub.end == Parting(t))
    && (sub'.listed == sub.listed || sub.phase == New(t) || sub.phase == Leaves(t))
    && (sub'.silent == sub.silent || (sub.phase == Leaves(t) && sub.lock == Some(t)) || (sub.phase == Gone && !sub'.silent))
  }

  /** Of a channel that another activity has locked, the list and the place in the table stay. */
  ghost predicate ChanFrame(ch: Channel, ch': Channel, t: Tid) {
    && (forall u: Tid :: u != t ==> (ch'.lock == Some(u) <==> ch.lock == Some(u)))
    && (ch.lock.Some? && ch.lock != Some(t) ==>
          ch'.list == ch.list && (Table in ch'.count.holders <==> Table in ch.count.holders))
  }

  ghost predicate SameKey(s: State, s': State, c: Cid) {
    c in s.chans ==> c in s'.chans && s'.chans[c].key == s.chans[c].key
  }

  lemma PutTakeFrame(s: State, t: Tid, a: Action, s': State)
    requires PutStep(s, t, a, s') || TakeStep(s, t, a, s')
    ensures Frame(s, t, IdOf(a), s')
  {
  }

  lemma PublishFrame(s: State, t: Tid, a: Action, s': State)
    requires PublishStep(s, t, a, s')
    ensures Frame(s, t, IdOf(a), s')
  {
    hide MsgOf, Dup, Drop;
  }

  lemma WorkLoopFrame(s: State, t: Tid, a: Action, s': State)
    requires WorkStep(s, t, a, s') || LoopStep(s, t, a, s')
    ensures Frame(s, t, IdOf(a), s')
  {
  }

  lemma CallReleaseFrame(s: State, t: Tid, a: Action, s': State)
    requires CallStep(s, t, a, s') || ReleaseStep(s, t, a, s')
    ensures Frame(s, t, IdOf(a), s')
  {
  }

  lemma JoinFrame(s: State, t: Tid, a: Action, s': State)
    requires JoinStep(s, t, a, s')
    ensures Frame(s, t, IdOf(a), s')
  {
  }

  lemma LeaveQuitFrame(s: State, t: Tid, a: Action, s': State)
    requires LeaveStep(s, t, a, s') || QuitStep(s, t, a, s')
    ensures Frame(s, t, IdOf(a), s')
  {
  }

  lemma StepFrame(s: State, t: Tid, a: Action, s': State)
    requires Next(s, t, a, s')
    ensures Frame(s, t, IdOf(a), s')
  {
    hide PutStep, TakeStep, PublishStep, WorkStep, LoopStep, CallStep, ReleaseStep, JoinStep, LeaveStep, QuitStep, Frame, HoldersFrame, UseFrame, ChanFrame, SameKey, MsgRefsAt, SubRefsAt, SubUsersAt, ChanRefsAt, MembersAt, TableAt, EntryAt, ChanLockAt, PcAt, Exact, SubOk;
    match PartOf(a)
    case InPut => PutTakeFrame(s, t, a, s');
    case InTake => PutTakeFrame(s, t, a, s');
    case InPublish => PublishFrame(s, t, a, s');
    case InWork => WorkLoopFrame(s, t, a, s');
    case InLoop => WorkLoopFrame(s, t, a, s');
    case InCall => CallReleaseFrame(s, t, a, s');
    case InRelease => CallReleaseFrame(s, t, a, s');
    case InJoin => JoinFrame(s, t, a, s');
    case InLeave => LeaveQuitFrame(s, t, a, s');
    case InQuit => LeaveQuitFrame(s, t, a, s');
  }

  // ---------------------------------------------------------------------------------------------
  // References to messages

  /** The message a step works on. */
  function MsgIn(s: State, t: Tid, a: Action): Mid {
    var pc := PcOf(s, t);
    if a.OutDone? && a.i in s.packets then s.packets[a.i]
    else if a.Take? && a.i in s.queue then s.queue[a.i].m
    else if pc.Publishing? || pc.Working? || pc.Delivering? then pc.m else 0
  }

  ghost predicate MsgKnown(s: State, t: Tid, a: Action, m: Mid) {
    MsgRefsAt(s, t, IdOf(a), m) && (m in s.msgs ==> Exact(s.msgs[m]))
  }

  lemma PutKeepsMsgExact(s: State, t: Tid, a: Action, s': State, m: Mid)
    requires PutStep(s, t, a, s') && MsgKnown(s, t, a, m)
    ensures m in s'.msgs ==> Exact(s'.msgs[m])
  {
    hide Exact, Started;
    if m == MsgIn(s, t, a) {
      MoveKeeps(MsgOf(s, m), Held(t, Putting(s, PcOf(s, t)).value.1), Task(a.i));
    }
  }

  lemma TakeKeepsMsgExact(s: State, t: Tid, a: Action, s': State, m: Mid)
    requires TakeStep(s, t, a, s') && MsgKnown(s, t, a, m)
    ensures m in s'.msgs ==> Exact(s'.msgs[m])
  {
    if m == MsgIn(s, t, a) {
      MoveKeeps(MsgOf(s, m), Task(a.i), Mine(t));
    }
  }

  lemma PublishKeepsMsgExact(s: State, t: Tid, a: Action, s': State, m: Mid)
    requires PublishStep(s, t, a, s') && MsgKnown(s, t, a, m)
    ensures m in s'.msgs ==> Exact(s'.msgs[m])
  {
    if m == MsgIn(s, t, a) {
      match a
      case Copy => DupKeeps(MsgOf(s, m), Held(t, true));
      case SendOut(i) => DupKeeps(MsgOf(s, m), Sent(i));
      case OutDone(i) => DropKeeps(MsgOf(s, m), Sent(i));
      case Finish => DropKeeps(MsgOf(s, m), Mine(t));
      case _ =>
    }
  }

  lemma WorkKeepsMsgExact(s: State, t: Tid, a: Action, s': State, m: Mid)
    requires WorkStep(s, t, a, s') && MsgKnown(s, t, a, m)
    ensures m in s'.msgs ==> Exact(s'.msgs[m])
  {
    if m == MsgIn(s, t, a) && a.EndLoop? {
      DropKeeps(MsgOf(s, m), Mine(t));
    }
  }

  lemma LoopKeepsMsgExact(s: State, t: Tid, a: Action, s': State, m: Mid)
    requires LoopStep(s, t, a, s') && MsgKnown(s, t, a, m)
    ensures m in s'.msgs ==> Exact(s'.msgs[m])
  {
    if m == MsgIn(s, t, a) && a.CopyFor? {
      DupKeeps(MsgOf(s, m), Held(t, true));
    }
  }

  lemma CallKeepsMsgExact(s: State, t: Tid, a: Action, s': State, m: Mid)
    requires CallStep(s, t, a, s') && MsgKnown(s, t, a, m)
    ensures m in s'.msgs ==> Exact(s'.msgs[m])
  {
    if m == MsgIn(s, t, a) && a.DropMsg? {
      DropKeeps(MsgOf(s, m), Mine(t));
    }
  }

  lemma ReleaseToQuitKeepsMsgExact(s: State, t: Tid, a: Action, s': State, m: Mid)
    requires ReleaseStep(s, t, a, s') || JoinStep(s, t, a, s') || LeaveStep(s, t, a, s') || QuitStep(s, t, a, s')
    requires MsgKnown(s, t, a, m)
    ensures m in s'.msgs ==> Exact(s'.msgs[m])
  {
  }

  lemma StepKeepsMsgExact(s: State, t: Tid, a: Action, s': State, m: Mid)
    requires Next(s, t, a, s') && MsgKnown(s, t, a, m)
    ensures m in s'.msgs ==> Exact(s'.msgs[m])
  {
    hide PutStep, TakeStep, PublishStep, WorkStep, LoopStep, CallStep, ReleaseStep, JoinStep, LeaveStep, QuitStep, Frame, HoldersFrame, UseFrame, ChanFrame, SameKey, MsgRefsAt, SubRefsAt, SubUsersAt, ChanRefsAt, MembersAt, TableAt, EntryAt, ChanLockAt, PcAt, Exact, SubOk;
    match PartOf(a)
    case InPut => PutKeepsMsgExact(s, t, a, s', m);
    case InTake => TakeKeepsMsgExact(s, t, a, s', m);
    case InPublish => PublishKeepsMsgExact(s, t, a, s', m);
    case InWork => WorkKeepsMsgExact(s, t, a, s', m);
    case InLoop => LoopKeepsMsgExact(s, t, a, s', m);
    case InCall => CallKeepsMsgExact(s, t, a, s', m);
    case InRelease => ReleaseToQuitKeepsMsgExact(s, t, a, s', m);
    case InJoin => ReleaseToQuitKeepsMsgExact(s, t, a, s', m);
    case InLeave => ReleaseToQuitKeepsMsgExact(s, t, a, s', m);
    case InQuit => ReleaseToQuitKeepsMsgExact(s, t, a, s', m);
  }

  lemma PutKeepsOwnMsg(s: State, t: Tid, a: Action, s': State, m: Mid)
    requires PutStep(s, t, a, s') && MsgRefsAt(s, t, IdOf(a), m)
    ensures MsgRefsAt(s', t, IdOf(a), m)
    ensures HoldersFrame(MsgOf(s, m).holders, MsgOf(s', m).holders, t, IdOf(a))
  {
  }

  lemma TakeKeepsOwnMsg(s: State, t: Tid, a: Action, s': State, m: Mid)
    requires TakeStep(s, t, a, s') && MsgRefsAt(s, t, IdOf(a), m)
    ensures MsgRefsAt(s', t, IdOf(a), m)
    ensures HoldersFrame(MsgOf(s, m).holders, MsgOf(s', m).holders, t, IdOf(a))
  {
  }

  lemma SocketKeepsOwnMsg(s: State, t: Tid, a: Action, s': State, m: Mid)
    requires PublishStep(s, t, a, s') && MsgRefsAt(s, t, IdOf(a), m) && (a.SendOut? || a.OutDone?)
    ensures MsgRefsAt(s', t, IdOf(a), m)
    ensures HoldersFrame(MsgOf(s, m).holders, MsgOf(s', m).holders, t, IdOf(a))
  {
  }

  lemma LookupKeepsOwnMsg(s: State, t: Tid, a: Action, s': State, m: Mid)
    requires PublishStep(s, t, a, s') && MsgRefsAt(s, t, IdOf(a), m) && !a.SendOut? && !a.OutDone?
    ensures MsgRefsAt(s', t, IdOf(a), m)
    ensures HoldersFrame(MsgOf(s, m).holders, MsgOf(s', m).holders, t, IdOf(a))
  {
  }

  lemma PublishKeepsOwnMsg(s: State, t: Tid, a: Action, s': State, m: Mid)
    requires PublishStep(s, t, a, s') && MsgRefsAt(s, t, IdOf(a), m)
    ensures MsgRefsAt(s', t, IdOf(a), m)
    ensures HoldersFrame(MsgOf(s, m).holders, MsgOf(s', m).holders, t, IdOf(a))
  {
    hide PublishStep, MsgRefsAt, HoldersFrame;
    if a.SendOut? || a.OutDone? { SocketKeepsOwnMsg(s, t, a, s', m); } else { LookupKeepsOwnMsg(s, t, a, s', m); }
  }

  lemma WorkKeepsOwnMsg(s: State, t: Tid, a: Action, s': State, m: Mid)
    requires WorkStep(s, t, a, s') && MsgRefsAt(s, t, IdOf(a), m)
    ensures MsgRefsAt(s', t, IdOf(a), m)
    ensures HoldersFrame(MsgOf(s, m).holders, MsgOf(s', m).holders, t, IdOf(a))
  {
  }

  lemma LoopKeepsOwnMsg(s: State, t: Tid, a: Action, s': State, m: Mid)
    requires LoopStep(s, t, a, s') && MsgRefsAt(s, t, IdOf(a), m)
    ensures MsgRefsAt(s', t, IdOf(a), m)
    ensures HoldersFrame(MsgOf(s, m).holders, MsgOf(s', m).holders, t, IdOf(a))
  {
  }

  lemma CallKeepsOwnMsg(s: State, t: Tid, a: Action, s': State, m: Mid)
    requires CallStep(s, t, a, s') && MsgRefsAt(s, t, IdOf(a), m)
    ensures MsgRefsAt(s', t, IdOf(a), m)
    ensures HoldersFrame(MsgOf(s, m).holders, MsgOf(s', m).holders, t, IdOf(a))
  {
  }

  lemma ReleaseKeepsOwnMsg(s: State, t: Tid, a: Action, s': State, m: Mid)
    requires ReleaseStep(s, t, a, s') && MsgRefsAt(s, t, IdOf(a), m)
    ensures MsgRefsAt(s', t, IdOf(a), m)
    ensures HoldersFrame(MsgOf(s, m).holders, MsgOf(s', m).holders, t, IdOf(a))
  {
  }

  lemma JoinKeepsOwnMsg(s: State, t: Tid, a: Action, s': State, m: Mid)
    requires JoinStep(s, t, a, s') && MsgRefsAt(s, t, IdOf(a), m)
    ensures MsgRefsAt(s', t, IdOf(a), m)
    ensures HoldersFrame(MsgOf(s, m).holders, MsgOf(s', m).holders, t, IdOf(a))
  {
  }

  lemma LeaveQuitKeepsOwnMsg(s: State, t: Tid, a: Action, s': State, m: Mid)
    requires LeaveStep(s, t, a, s') || QuitStep(s, t, a, s')
    requires MsgRefsAt(s, t, IdOf(a), m)
    ensures MsgRefsAt(s', t, IdOf(a), m)
    ensures HoldersFrame(MsgOf(s, m).holders, MsgOf(s', m).holders, t, IdOf(a))
  {
  }

  lemma StepKeepsOwnMsg(s: State, t: Tid, a: Action, s': State, m: Mid)
    requires Next(s, t, a, s') && MsgRefsAt(s, t, IdOf(a), m)
    ensures MsgRefsAt(s', t, IdOf(a), m)
    ensures HoldersFrame(MsgOf(s, m).holders, MsgOf(s', m).holders, t, IdOf(a))
  {
    hide PutStep, TakeStep, PublishStep, WorkStep, LoopStep, CallStep, ReleaseStep, JoinStep, LeaveStep, QuitStep, Frame, HoldersFrame, UseFrame, ChanFrame, SameKey, MsgRefsAt, SubRefsAt, SubUsersAt, ChanRefsAt, MembersAt, TableAt, EntryAt, ChanLockAt, PcAt, Exact, SubOk;
    match PartOf(a)
    case InPut => PutKeepsOwnMsg(s, t, a, s', m);
    case InTake => TakeKeepsOwnMsg(s, t, a, s', m);
    case InPublish => PublishKeepsOwnMsg(s, t, a, s', m);
    case InWork => WorkKeepsOwnMsg(s, t, a, s', m);
    case InLoop => LoopKeepsOwnMsg(s, t, a, s', m);
    case InCall => CallKeepsOwnMsg(s, t, a, s', m);
    case InRelease => ReleaseKeepsOwnMsg(s, t, a, s', m);
    case InJoin => JoinKeepsOwnMsg(s, t, a, s', m);
    case InLeave => LeaveQuitKeepsOwnMsg(s, t, a, s', m);
    case InQuit => LeaveQuitKeepsOwnMsg(s, t, a, s', m);
  }

  lemma FrameKeepsMsg(s: State, t: Tid, j: Id, s': State, u: Tid, i: Id, m: Mid)
    requires Frame(s, t, j, s') && HoldersFrame(MsgOf(s, m).holders, MsgOf(s', m).holders, t, j)
    requires MsgRefsAt(s', t, j, m) && MsgRefsAt(s, u, i, m)
    ensures MsgRefsAt(s', u, i, m)
  {
  }

  // ---------------------------------------------------------------------------------------------
  // References to subscriptions

  ghost predicate SubKnown(s: State, t: Tid, a: Action, x: Sid) {
    SubRefsAt(s, t, IdOf(a), x) && SubUsersAt(s, t, x) && (x in s.subs ==> SubOk(s.subs[x]))
  }

  lemma MovedSubOk(sub: Subscription, from: Token, to: Token)
    requires SubOk(sub) && from in sub.count.holders && to !in sub.count.holders && from != Owner && to != Owner
    ensures SubOk(SubMoved(sub, from, to))
  {
    MoveKeeps(sub.count, from, to);
    assert to in Move(sub.count, from, to).holders;
  }

  lemma DroppedSubOk(sub: Subscription, t: Tid, tok: Token)
    requires SubOk(sub) && tok in sub.count.holders && tok != Owner
    ensures SubOk(Released(sub, t, tok))
  {
    DropKeeps(sub.count, tok);
  }

  lemma LastDroppedSubOk(sub: Subscription, t: Tid)
    requires SubOk(sub) && Owner in sub.count.holders && !sub.listed && sub.silent && sub.phase.Leaves?
    ensures SubOk(Released(sub, t, Owner).(phase := Gone))
  {
    DropKeeps(sub.count, Owner);
  }

  lemma PutKeepsSubOk(s: State, t: Tid, a: Action, s': State, x: Sid)
    requires PutStep(s, t, a, s') && SubKnown(s, t, a, x) && (a == NextSub(x) ==> SubOf(s, x).listed)
    ensures x in s'.subs ==> SubOk(s'.subs[x])
  {
    var item := Putting(s, PcOf(s, t)).value.0;
    if item.ToSub? && x == item.x {
      assert HasSub(PcOf(s, t), x) && SubOf(s', x) == SubMoved(SubOf(s, x), Mine(t), Task(a.i));
      MovedSubOk(SubOf(s, x), Mine(t), Task(a.i));
    } else {
      assert SubOf(s', x) == SubOf(s, x);
    }
  }

  lemma TakeKeepsSubOk(s: State, t: Tid, a: Action, s': State, x: Sid)
    requires TakeStep(s, t, a, s') && SubKnown(s, t, a, x) && (a == NextSub(x) ==> SubOf(s, x).listed)
    ensures x in s'.subs ==> SubOk(s'.subs[x])
  {
    if s.queue[a.i].ToSub? && x == s.queue[a.i].x {
      MovedSubOk(SubOf(s, x), Task(a.i), Mine(t));
    }
  }

  lemma PublishKeepsSubOk(s: State, t: Tid, a: Action, s': State, x: Sid)
    requires PublishStep(s, t, a, s') && SubKnown(s, t, a, x) && (a == NextSub(x) ==> SubOf(s, x).listed)
    ensures x in s'.subs ==> SubOk(s'.subs[x])
  {
    hide Exact, Dup, Drop, MsgOf, SubUsersAt, SubRefsAt, SubOk;
  }

  lemma WorkKeepsSubOk(s: State, t: Tid, a: Action, s': State, x: Sid)
    requires WorkStep(s, t, a, s') && SubKnown(s, t, a, x) && (a == NextSub(x) ==> SubOf(s, x).listed)
    ensures x in s'.subs ==> SubOk(s'.subs[x])
  {
  }

  lemma LoopKeepsSubOk(s: State, t: Tid, a: Action, s': State, x: Sid)
    requires LoopStep(s, t, a, s') && SubKnown(s, t, a, x) && (a == NextSub(x) ==> SubOf(s, x).listed)
    ensures x in s'.subs ==> SubOk(s'.subs[x])
  {
    if a == NextSub(x) {
      DupKeeps(SubOf(s, x).count, Mine(t));
    }
  }

  lemma CallKeepsSubOk(s: State, t: Tid, a: Action, s': State, x: Sid)
    requires CallStep(s, t, a, s') && SubKnown(s, t, a, x) && (a == NextSub(x) ==> SubOf(s, x).listed)
    ensures x in s'.subs ==> SubOk(s'.subs[x])
  {
  }

  lemma ReleaseKeepsSubOk(s: State, t: Tid, a: Action, s': State, x: Sid)
    requires ReleaseStep(s, t, a, s') && SubKnown(s, t, a, x) && (a == NextSub(x) ==> SubOf(s, x).listed)
    ensures x in s'.subs ==> SubOk(s'.subs[x])
  {
    if x == PcOf(s, t).x {
      match a
      case LetGo => DroppedSubOk(SubOf(s, x), t, Mine(t));
      case LetGoLast => LastDroppedSubOk(SubOf(s, x), t);
      case _ =>
    }
  }

  lemma JoinKeepsSubOk(s: State, t: Tid, a: Action, s': State, x: Sid)
    requires JoinStep(s, t, a, s') && SubKnown(s, t, a, x) && (a == NextSub(x) ==> SubOf(s, x).listed)
    ensures x in s'.subs ==> SubOk(s'.subs[x])
  {
  }

  lemma LeaveKeepsSubOk(s: State, t: Tid, a: Action, s': State, x: Sid)
    requires LeaveStep(s, t, a, s') && SubKnown(s, t, a, x) && (a == NextSub(x) ==> SubOf(s, x).listed)
    ensures x in s'.subs ==> SubOk(s'.subs[x])
  {
  }

  lemma QuitKeepsSubOk(s: State, t: Tid, a: Action, s': State, x: Sid)
    requires QuitStep(s, t, a, s') && SubKnown(s, t, a, x) && (a == NextSub(x) ==> SubOf(s, x).listed)
    ensures x in s'.subs ==> SubOk(s'.subs[x])
  {
  }

  lemma StepKeepsSubOk(s: State, t: Tid, a: Action, s': State, x: Sid)
    requires Next(s, t, a, s') && SubKnown(s, t, a, x) && (a == NextSub(x) ==> SubOf(s, x).listed)
    ensures x in s'.subs ==> SubOk(s'.subs[x])
  {
    hide PutStep, TakeStep, PublishStep, WorkStep, LoopStep, CallStep, ReleaseStep, JoinStep, LeaveStep, QuitStep, Frame, HoldersFrame, UseFrame, ChanFrame, SameKey, MsgRefsAt, SubRefsAt, SubUsersAt, ChanRefsAt, MembersAt, TableAt, EntryAt, ChanLockAt, PcAt, Exact, SubOk;
    match PartOf(a)
    case InPut => PutKeepsSubOk(s, t, a, s', x);
    case InTake => TakeKeepsSubOk(s, t, a, s', x);
    case InPublish => PublishKeepsSubOk(s, t, a, s', x);
    case InWork => WorkKeepsSubOk(s, t, a, s', x);
    case InLoop => LoopKeepsSubOk(s, t, a, s', x);
    case InCall => CallKeepsSubOk(s, t, a, s', x);
    case InRelease => ReleaseKeepsSubOk(s, t, a, s', x);
    case InJoin => JoinKeepsSubOk(s, t, a, s', x);
    case InLeave => LeaveKeepsSubOk(s, t, a, s', x);
    case InQuit => QuitKeepsSubOk(s, t, a, s', x);
  }

  lemma PutKeepsOwnSub(s: State, t: Tid, a: Action, s': State, x: Sid)
    requires PutStep(s, t, a, s') && SubRefsAt(s, t, IdOf(a), x)
    ensures SubRefsAt(s', t, IdOf(a), x)
    ensures HoldersFrame(SubOf(s, x).count.holders, SubOf(s', x).count.holders, t, IdOf(a))
  {
  }

  lemma TakeKeepsOwnSub(s: State, t: Tid, a: Action, s': State, x: Sid)
    requires TakeStep(s, t, a, s') && SubRefsAt(s, t, IdOf(a), x)
    ensures SubRefsAt(s', t, IdOf(a), x)
    ensures HoldersFrame(SubOf(s, x).count.holders, SubOf(s', x).count.holders, t, IdOf(a))
  {
  }

  lemma PublishKeepsOwnSub(s: State, t: Tid, a: Action, s': State, x: Sid)
    requires PublishStep(s, t, a, s') && SubRefsAt(s, t, IdOf(a), x)
    ensures SubRefsAt(s', t, IdOf(a), x)
    ensures HoldersFrame(SubOf(s, x).count.holders, SubOf(s', x).count.holders, t, IdOf(a))
  {
  }

  lemma WorkLoopKeepsOwnSub(s: State, t: Tid, a: Action, s': State, x: Sid)
    requires WorkStep(s, t, a, s') || LoopStep(s, t, a, s')
    requires SubRefsAt(s, t, IdOf(a), x)
    ensures SubRefsAt(s', t, IdOf(a), x)
    ensures HoldersFrame(SubOf(s, x).count.holders, SubOf(s', x).count.holders, t, IdOf(a))
  {
  }

  lemma CallKeepsOwnSub(s: State, t: Tid, a: Action, s': State, x: Sid)
    requires CallStep(s, t, a, s') && SubRefsAt(s, t, IdOf(a), x)
    ensures SubRefsAt(s', t, IdOf(a), x)
    ensures HoldersFrame(SubOf(s, x).count.holders, SubOf(s', x).count.holders, t, IdOf(a))
  {
  }

  lemma ReleaseKeepsOwnSub(s: State, t: Tid, a: Action, s': State, x: Sid)
    requires ReleaseStep(s, t, a, s') && SubRefsAt(s, t, IdOf(a), x)
    ensures SubRefsAt(s', t, IdOf(a), x)
    ensures HoldersFrame(SubOf(s, x).count.holders, SubOf(s', x).count.holders, t, IdOf(a))
  {
  }

  lemma JoinKeepsOwnSub(s: State, t: Tid, a: Action, s': State, x: Sid)
    requires JoinStep(s, t, a, s') && SubRefsAt(s, t, IdOf(a), x)
    ensures SubRefsAt(s', t, IdOf(a), x)
    ensures HoldersFrame(SubOf(s, x).count.holders, SubOf(s', x).count.holders, t, IdOf(a))
  {
  }

  lemma LeaveKeepsOwnSub(s: State, t: Tid, a: Action, s': State, x: Sid)
    requires LeaveStep(s, t, a, s') && SubRefsAt(s, t, IdOf(a), x)
    ensures SubRefsAt(s', t, IdOf(a), x)
    ensures HoldersFrame(SubOf(s, x).count.holders, SubOf(s', x).count.holders, t, IdOf(a))
  {
  }

  lemma QuitKeepsOwnSub(s: State, t: Tid, a: Action, s': State, x: Sid)
    requires QuitStep(s, t, a, s') && SubRefsAt(s, t, IdOf(a), x)
    ensures SubRefsAt(s', t, IdOf(a), x)
    ensures HoldersFrame(SubOf(s, x).count.holders, SubOf(s', x).count.holders, t, IdOf(a))
  {
  }

  lemma StepKeepsOwnSub(s: State, t: Tid, a: Action, s': State, x: Sid)
    requires Next(s, t, a, s') && SubRefsAt(s, t, IdOf(a), x)
    ensures SubRefsAt(s', t, IdOf(a), x)
    ensures HoldersFrame(SubOf(s, x).count.holders, SubOf(s', x).count.holders, t, IdOf(a))
  {
    hide PutStep, TakeStep, PublishStep, WorkStep, LoopStep, CallStep, ReleaseStep, JoinStep, LeaveStep, QuitStep, Frame, HoldersFrame, UseFrame, ChanFrame, SameKey, MsgRefsAt, SubRefsAt, SubUsersAt, ChanRefsAt, MembersAt, TableAt, EntryAt, ChanLockAt, PcAt, Exact, SubOk;
    match PartOf(a)
    case InPut => PutKeepsOwnSub(s, t, a, s', x);
    case InTake => TakeKeepsOwnSub(s, t, a, s', x);
    case InPublish => PublishKeepsOwnSub(s, t, a, s', x);
    case InWork => WorkLoopKeepsOwnSub(s, t, a, s', x);
    case InLoop => WorkLoopKeepsOwnSub(s, t, a, s', x);
    case InCall => CallKeepsOwnSub(s, t, a, s', x);
    case InRelease => ReleaseKeepsOwnSub(s, t, a, s', x);
    case InJoin => JoinKeepsOwnSub(s, t, a, s', x);
    case InLeave => LeaveKeepsOwnSub(s, t, a, s', x);
    case InQuit => QuitKeepsOwnSub(s, t, a, s', x);
  }

  lemma PutKeepsOwnUse(s: State, t: Tid, a: Action, s': State, x: Sid)
    requires PutStep(s, t, a, s') && SubKnown(s, t, a, x)
    ensures SubUsersAt(s', t, x)
  {
  }

  lemma TakeKeepsOwnUse(s: State, t: Tid, a: Action, s': State, x: Sid)
    requires TakeStep(s, t, a, s') && SubKnown(s, t, a, x)
    ensures SubUsersAt(s', t, x)
  {
  }

  lemma PublishKeepsOwnUse(s: State, t: Tid, a: Action, s': State, x: Sid)
    requires PublishStep(s, t, a, s') && SubKnown(s, t, a, x)
    ensures SubUsersAt(s', t, x)
  {
    hide Exact, Dup, Drop, MsgOf, SubOk, SubRefsAt;
  }

  lemma WorkKeepsOwnUse(s: State, t: Tid, a: Action, s': State, x: Sid)
    requires WorkStep(s, t, a, s') && SubKnown(s, t, a, x)
    ensures SubUsersAt(s', t, x)
  {
  }

  lemma LoopKeepsOwnUse(s: State, t: Tid, a: Action, s': State, x: Sid)
    requires LoopStep(s, t, a, s') && SubKnown(s, t, a, x)
    ensures SubUsersAt(s', t, x)
  {
  }

  lemma CallKeepsOwnUse(s: State, t: Tid, a: Action, s': State, x: Sid)
    requires CallStep(s, t, a, s') && SubKnown(s, t, a, x)
    ensures SubUsersAt(s', t, x)
  {
    hide Exact, SubRefsAt;
  }

  lemma ReleaseKeepsOwnUse(s: State, t: Tid, a: Action, s': State, x: Sid)
    requires ReleaseStep(s, t, a, s') && SubKnown(s, t, a, x)
    ensures SubUsersAt(s', t, x)
  {
  }

  lemma JoinKeepsOwnUse(s: State, t: Tid, a: Action, s': State, x: Sid)
    requires JoinStep(s, t, a, s') && SubKnown(s, t, a, x)
    ensures SubUsersAt(s', t, x)
  {
  }

  lemma LeaveKeepsOwnUse(s: State, t: Tid, a: Action, s': State, x: Sid)
    requires LeaveStep(s, t, a, s') && SubKnown(s, t, a, x)
    ensures SubUsersAt(s', t, x)
  {
  }

  lemma QuitKeepsOwnUse(s: State, t: Tid, a: Action, s': State, x: Sid)
    requires QuitStep(s, t, a, s') && SubKnown(s, t, a, x)
    ensures SubUsersAt(s', t, x)
  {
  }

  lemma StepKeepsOwnUse(s: State, t: Tid, a: Action, s': State, x: Sid)
    requires Next(s, t, a, s') && SubKnown(s, t, a, x)
    ensures SubUsersAt(s', t, x)
  {
    hide PutStep, TakeStep, PublishStep, WorkStep, LoopStep, CallStep, ReleaseStep, JoinStep, LeaveStep, QuitStep, Frame, HoldersFrame, UseFrame, ChanFrame, SameKey, MsgRefsAt, SubRefsAt, SubUsersAt, ChanRefsAt, MembersAt, TableAt, EntryAt, ChanLockAt, PcAt, Exact, SubOk;
    match PartOf(a)
    case InPut => PutKeepsOwnUse(s, t, a, s', x);
    case InTake => TakeKeepsOwnUse(s, t, a, s', x);
    case InPublish => PublishKeepsOwnUse(s, t, a, s', x);
    case InWork => WorkKeepsOwnUse(s, t, a, s', x);
    case InLoop => LoopKeepsOwnUse(s, t, a, s', x);
    case InCall => CallKeepsOwnUse(s, t, a, s', x);
    case InRelease => ReleaseKeepsOwnUse(s, t, a, s', x);
    case InJoin => JoinKeepsOwnUse(s, t, a, s', x);
    case InLeave => LeaveKeepsOwnUse(s, t, a, s', x);
    case InQuit => QuitKeepsOwnUse(s, t, a, s', x);
  }

  lemma PutUseFrame(s: State, t: Tid, a: Action, s': State, x: Sid)
    requires PutStep(s, t, a, s') && SubKnown(s, t, a, x)
    ensures UseFrame(SubOf(s, x), SubOf(s', x), t)
  {
  }

  lemma TakeUseFrame(s: State, t: Tid, a: Action, s': State, x: Sid)
    requires TakeStep(s, t, a, s') && SubKnown(s, t, a, x)
    ensures UseFrame(SubOf(s, x), SubOf(s', x), t)
  {
  }

  lemma PublishUseFrame(s: State, t: Tid, a: Action, s': State, x: Sid)
    requires PublishStep(s, t, a, s') && SubKnown(s, t, a, x)
    ensures UseFrame(SubOf(s, x), SubOf(s', x), t)
  {
    hide Exact, SubOk, SubUsersAt, Dup, Drop, MsgOf;
  }

  lemma WorkLoopUseFrame(s: State, t: Tid, a: Action, s': State, x: Sid)
    requires WorkStep(s, t, a, s') || LoopStep(s, t, a, s')
    requires SubKnown(s, t, a, x)
    ensures UseFrame(SubOf(s, x), SubOf(s', x), t)
  {
  }

  lemma CallUseFrame(s: State, t: Tid, a: Action, s': State, x: Sid)
    requires CallStep(s, t, a, s') && SubKnown(s, t, a, x)
    ensures UseFrame(SubOf(s, x), SubOf(s', x), t)
  {
  }

  lemma ReleaseUseFrame(s: State, t: Tid, a: Action, s': State, x: Sid)
    requires ReleaseStep(s, t, a, s') && SubKnown(s, t, a, x)
    ensures UseFrame(SubOf(s, x), SubOf(s', x), t)
  {
  }

  lemma JoinUseFrame(s: State, t: Tid, a: Action, s': State, x: Sid)
    requires JoinStep(s, t, a, s') && SubKnown(s, t, a, x)
    ensures UseFrame(SubOf(s, x), SubOf(s', x), t)
  {
  }

  lemma LeaveUseFrame(s: State, t: Tid, a: Action, s': State, x: Sid)
    requires LeaveStep(s, t, a, s') && SubKnown(s, t, a, x)
    ensures UseFrame(SubOf(s, x), SubOf(s', x), t)
  {
  }

  lemma QuitUseFrame(s: State, t: Tid, a: Action, s': State, x: Sid)
    requires QuitStep(s, t, a, s') && SubKnown(s, t, a, x)
    ensures UseFrame(SubOf(s, x), SubOf(s', x), t)
  {
  }

  lemma StepUseFrame(s: State, t: Tid, a: Action, s': State, x: Sid)
    requires Next(s, t, a, s') && SubKnown(s, t, a, x)
    ensures UseFrame(SubOf(s, x), SubOf(s', x), t)
  {
    hide PutStep, TakeStep, PublishStep, WorkStep, LoopStep, CallStep, ReleaseStep, JoinStep, LeaveStep, QuitStep, Frame, HoldersFrame, UseFrame, ChanFrame, SameKey, MsgRefsAt, SubRefsAt, SubUsersAt, ChanRefsAt, MembersAt, TableAt, EntryAt, ChanLockAt, PcAt, Exact, SubOk;
    match PartOf(a)
    case InPut => PutUseFrame(s, t, a, s', x);
    case InTake => TakeUseFrame(s, t, a, s', x);
    case InPublish => PublishUseFrame(s, t, a, s', x);
    case InWork => WorkLoopUseFrame(s, t, a, s', x);
    case InLoop => WorkLoopUseFrame(s, t, a, s', x);
    case InCall => CallUseFrame(s, t, a, s', x);
    case InRelease => ReleaseUseFrame(s, t, a, s', x);
    case InJoin => JoinUseFrame(s, t, a, s', x);
    case InLeave => LeaveUseFrame(s, t, a, s', x);
    case InQuit => QuitUseFrame(s, t, a, s', x);
  }

  // Once a subscription is unsubscribed no step starts its callback or undoes that.

  lemma PutTakeKeepsGone(s: State, t: Tid, a: Action, s': State, x: Sid)
    requires PutStep(s, t, a, s') || TakeStep(s, t, a, s')
    requires SubKnown(s, t, a, x) && x in s.subs && s.subs[x].phase == Gone
    ensures x in s'.subs && s'.subs[x].phase == Gone && s'.subs[x].starts == s.subs[x].starts
  {
  }

  lemma PublishKeepsGone(s: State, t: Tid, a: Action, s': State, x: Sid)
    requires PublishStep(s, t, a, s')
    requires SubKnown(s, t, a, x) && x in s.subs && s.subs[x].phase == Gone
    ensures x in s'.subs && s'.subs[x].phase == Gone && s'.subs[x].starts == s.subs[x].starts
  {
  }

  lemma WorkLoopKeepsGone(s: State, t: Tid, a: Action, s': State, x: Sid)
    requires WorkStep(s, t, a, s') || LoopStep(s, t, a, s')
    requires SubKnown(s, t, a, x) && x in s.subs && s.subs[x].phase == Gone
    ensures x in s'.subs && s'.subs[x].phase == Gone && s'.subs[x].starts == s.subs[x].starts
  {
  }

  lemma CallKeepsGone(s: State, t: Tid, a: Action, s': State, x: Sid)
    requires CallStep(s, t, a, s') && SubKnown(s, t, a, x) && x in s.subs && s.subs[x].phase == Gone
    ensures x in s'.subs && s'.subs[x].phase == Gone && s'.subs[x].starts == s.subs[x].starts
  {
  }

  lemma ReleaseKeepsGone(s: State, t: Tid, a: Action, s': State, x: Sid)
    requires ReleaseStep(s, t, a, s') && SubKnown(s, t, a, x) && x in s.subs && s.subs[x].phase == Gone
    ensures x in s'.subs && s'.subs[x].phase == Gone && s'.subs[x].starts == s.subs[x].starts
  {
  }

  lemma JoinKeepsGone(s: State, t: Tid, a: Action, s': State, x: Sid)
    requires JoinStep(s, t, a, s') && SubKnown(s, t, a, x) && x in s.subs && s.subs[x].phase == Gone
    ensures x in s'.subs && s'.subs[x].phase == Gone && s'.subs[x].starts == s.subs[x].starts
  {
  }

  lemma LeaveQuitKeepsGone(s: State, t: Tid, a: Action, s': State, x: Sid)
    requires LeaveStep(s, t, a, s') || QuitStep(s, t, a, s')
    requires SubKnown(s, t, a, x) && x in s.subs && s.subs[x].phase == Gone
    ensures x in s'.subs && s'.subs[x].phase == Gone && s'.subs[x].starts == s.subs[x].starts
  {
  }

  lemma StepKeepsGone(s: State, t: Tid, a: Action, s': State, x: Sid)
    requires Next(s, t, a, s') && SubKnown(s, t, a, x) && x in s.subs && s.subs[x].phase == Gone
    ensures x in s'.subs && s'.subs[x].phase == Gone && s'.subs[x].starts == s.subs[x].starts
  {
    hide PutStep, TakeStep, PublishStep, WorkStep, LoopStep, CallStep, ReleaseStep, JoinStep, LeaveStep, QuitStep, Frame, HoldersFrame, UseFrame, ChanFrame, SameKey, MsgRefsAt, SubRefsAt, SubUsersAt, ChanRefsAt, MembersAt, TableAt, EntryAt, ChanLockAt, PcAt, Exact, SubOk;
    match PartOf(a)
    case InPut => PutTakeKeepsGone(s, t, a, s', x);
    case InTake => PutTakeKeepsGone(s, t, a, s', x);
    case InPublish => PublishKeepsGone(s, t, a, s', x);
    case InWork => WorkLoopKeepsGone(s, t, a, s', x);
    case InLoop => WorkLoopKeepsGone(s, t, a, s', x);
    case InCall => CallKeepsGone(s, t, a, s', x);
    case InRelease => ReleaseKeepsGone(s, t, a, s', x);
    case InJoin => JoinKeepsGone(s, t, a, s', x);
    case InLeave => LeaveQuitKeepsGone(s, t, a, s', x);
    case InQuit => LeaveQuitKeepsGone(s, t, a, s', x);
  }

  lemma FrameKeepsSub(s: State, t: Tid, j: Id, s': State, u: Tid, i: Id, x: Sid)
    requires Frame(s, t, j, s') && HoldersFrame(SubOf(s, x).count.holders, SubOf(s', x).count.holders, t, j)
    requires SubRefsAt(s', t, j, x) && SubRefsAt(s, u, i, x)
    ensures SubRefsAt(s', u, i, x)
  {
  }

  lemma FrameKeepsUse(s: State, t: Tid, i: Id, s': State, u: Tid, x: Sid)
    requires Frame(s, t, i, s') && UseFrame(SubOf(s, x), SubOf(s', x), t) && SubUsersAt(s, u, x) && u != t
    ensures SubUsersAt(s', u, x)
  {
  }

  // ---------------------------------------------------------------------------------------------
  // References to channels

  /** The subscription that joins or leaves a channel in the step. */
  function MemberIn(s: State, t: Tid): Sid {
    var pc := PcOf(s, t);
    if pc.Joining? || pc.Leaving? || pc.Parted? then pc.x else 0
  }

  /** What the invariant says about the channel and about what the activity finds in the table. */
  ghost predicate ChanKnown(s: State, t: Tid, a: Action, c: Cid) {
    && ChanRefsAt(s, t, IdOf(a), c) && (c in s.chans ==> Exact(s.chans[c].count)) && TableAt(s, c) && ChanLockAt(s, t, c)
    && PcAt(s, t) && (PcOf(s, t).Leaving? ==> TableAt(s, PcOf(s, t).c))
    && (PcOf(s, t).Joining? ==> EntryAt(s, PcOf(s, t).key)) && (a.Find? ==> EntryAt(s, a.key))
    && var x := MemberIn(s, t);
       MembersAt(s, x, c) && SubUsersAt(s, t, x) && (x in s.subs ==> SubOk(s.subs[x]))
  }

  lemma PutKeepsChanExact(s: State, t: Tid, a: Action, s': State, c: Cid)
    requires PutStep(s, t, a, s') && ChanKnown(s, t, a, c)
    ensures c in s'.chans ==> Exact(s'.chans[c].count)
  {
    var item := Putting(s, PcOf(s, t)).value.0;
    if item.ToChannel? && c == item.c {
      MoveKeeps(ChanOf(s, c).count, Mine(t), Task(a.i));
    }
  }

  lemma TakeKeepsChanExact(s: State, t: Tid, a: Action, s': State, c: Cid)
    requires TakeStep(s, t, a, s') && ChanKnown(s, t, a, c)
    ensures c in s'.chans ==> Exact(s'.chans[c].count)
  {
    if s.queue[a.i].ToChannel? && c == s.queue[a.i].c {
      MoveKeeps(ChanOf(s, c).count, Task(a.i), Mine(t));
    }
  }

  lemma PublishKeepsChanExact(s: State, t: Tid, a: Action, s': State, c: Cid)
    requires PublishStep(s, t, a, s') && ChanKnown(s, t, a, c)
    ensures c in s'.chans ==> Exact(s'.chans[c].count)
  {
    if a.Find? && c == s.table[a.key] {
      DupKeeps(ChanOf(s, c).count, Mine(t));
    }
  }

  lemma WorkKeepsChanExact(s: State, t: Tid, a: Action, s': State, c: Cid)
    requires WorkStep(s, t, a, s') && ChanKnown(s, t, a, c)
    ensures c in s'.chans ==> Exact(s'.chans[c].count)
  {
    if a.DropChannel? && c == PcOf(s, t).c {
      DropKeeps(ChanOf(s, c).count, Mine(t));
    }
  }

  lemma LoopCallKeepsChanExact(s: State, t: Tid, a: Action, s': State, c: Cid)
    requires LoopStep(s, t, a, s') || CallStep(s, t, a, s')
    requires ChanKnown(s, t, a, c)
    ensures c in s'.chans ==> Exact(s'.chans[c].count)
  {
  }

  lemma ReleaseKeepsChanExact(s: State, t: Tid, a: Action, s': State, c: Cid)
    requires ReleaseStep(s, t, a, s') && ChanKnown(s, t, a, c)
    ensures c in s'.chans ==> Exact(s'.chans[c].count)
  {
    if a.DropParent? && c == PcOf(s, t).c {
      DropKeeps(ChanOf(s, c).count, Member(PcOf(s, t).x));
    }
  }

  lemma JoinKeepsChanExact(s: State, t: Tid, a: Action, s': State, c: Cid)
    requires JoinStep(s, t, a, s') && ChanKnown(s, t, a, c)
    ensures c in s'.chans ==> Exact(s'.chans[c].count)
  {
    if a.Link? && c == PcOf(s, t).c {
      DupKeeps(ChanOf(s, c).count, Member(PcOf(s, t).x));
    }
  }

  lemma LeaveKeepsChanExact(s: State, t: Tid, a: Action, s': State, c: Cid)
    requires LeaveStep(s, t, a, s') && ChanKnown(s, t, a, c)
    ensures c in s'.chans ==> Exact(s'.chans[c].count)
  {
  }

  lemma QuitKeepsChanExact(s: State, t: Tid, a: Action, s': State, c: Cid)
    requires QuitStep(s, t, a, s') && ChanKnown(s, t, a, c)
    ensures c in s'.chans ==> Exact(s'.chans[c].count)
  {
    if a.Retire? && c == PcOf(s, t).c {
      DropKeeps(ChanOf(s, c).count, Table);
    }
  }

  lemma StepKeepsChanExact(s: State, t: Tid, a: Action, s': State, c: Cid)
    requires Next(s, t, a, s') && ChanKnown(s, t, a, c)
    ensures c in s'.chans ==> Exact(s'.chans[c].count)
  {
    hide PutStep, TakeStep, PublishStep, WorkStep, LoopStep, CallStep, ReleaseStep, JoinStep, LeaveStep, QuitStep, Frame, HoldersFrame, UseFrame, ChanFrame, SameKey, MsgRefsAt, SubRefsAt, SubUsersAt, ChanRefsAt, MembersAt, TableAt, EntryAt, ChanLockAt, PcAt, Exact, SubOk;
    match PartOf(a)
    case InPut => PutKeepsChanExact(s, t, a, s', c);
    case InTake => TakeKeepsChanExact(s, t, a, s', c);
    case InPublish => PublishKeepsChanExact(s, t, a, s', c);
    case InWork => WorkKeepsChanExact(s, t, a, s', c);
    case InLoop => LoopCallKeepsChanExact(s, t, a, s', c);
    case InCall => LoopCallKeepsChanExact(s, t, a, s', c);
    case InRelease => ReleaseKeepsChanExact(s, t, a, s', c);
    case InJoin => JoinKeepsChanExact(s, t, a, s', c);
    case InLeave => LeaveKeepsChanExact(s, t, a, s', c);
    case InQuit => QuitKeepsChanExact(s, t, a, s', c);
  }

  lemma PutKeepsOwnChan(s: State, t: Tid, a: Action, s': State, c: Cid)
    requires PutStep(s, t, a, s') && ChanKnown(s, t, a, c)
    ensures ChanRefsAt(s', t, IdOf(a), c)
    ensures HoldersFrame(ChanOf(s, c).count.holders, ChanOf(s', c).count.holders, t, IdOf(a))
  {
  }

  lemma TakeKeepsOwnChan(s: State, t: Tid, a: Action, s': State, c: Cid)
    requires TakeStep(s, t, a, s') && ChanKnown(s, t, a, c)
    ensures ChanRefsAt(s', t, IdOf(a), c)
    ensures HoldersFrame(ChanOf(s, c).count.holders, ChanOf(s', c).count.holders, t, IdOf(a))
  {
  }

  lemma FindKeepsOwnChan(s: State, t: Tid, a: Action, s': State, c: Cid)
    requires PublishStep(s, t, a, s') && ChanKnown(s, t, a, c) && a.Find?
    ensures ChanRefsAt(s', t, IdOf(a), c)
    ensures HoldersFrame(ChanOf(s, c).count.holders, ChanOf(s', c).count.holders, t, IdOf(a))
  {
    hide Exact, SubOk, SubUsersAt, MembersAt, PcAt, TableAt, ChanLockAt, Drop, MsgOf;
  }

  lemma SendKeepsOwnChan(s: State, t: Tid, a: Action, s': State, c: Cid)
    requires PublishStep(s, t, a, s') && ChanKnown(s, t, a, c) && !a.Find?
    ensures ChanRefsAt(s', t, IdOf(a), c)
    ensures HoldersFrame(ChanOf(s, c).count.holders, ChanOf(s', c).count.holders, t, IdOf(a))
  {
    hide Exact, SubOk, SubUsersAt, MembersAt, PcAt, TableAt, ChanLockAt, Drop, MsgOf;
  }

  lemma PublishKeepsOwnChan(s: State, t: Tid, a: Action, s': State, c: Cid)
    requires PublishStep(s, t, a, s') && ChanKnown(s, t, a, c)
    ensures ChanRefsAt(s', t, IdOf(a), c)
    ensures HoldersFrame(ChanOf(s, c).count.holders, ChanOf(s', c).count.holders, t, IdOf(a))
  {
    hide PublishStep, ChanKnown, ChanRefsAt, HoldersFrame;
    if a.Find? { FindKeepsOwnChan(s, t, a, s', c); } else { SendKeepsOwnChan(s, t, a, s', c); }
  }

  lemma WorkKeepsOwnChan(s: State, t: Tid, a: Action, s': State, c: Cid)
    requires WorkStep(s, t, a, s') && ChanKnown(s, t, a, c)
    ensures ChanRefsAt(s', t, IdOf(a), c)
    ensures HoldersFrame(ChanOf(s, c).count.holders, ChanOf(s', c).count.holders, t, IdOf(a))
  {
    hide Exact, SubOk, SubUsersAt, MembersAt, PcAt, TableAt, ChanLockAt;
  }

  lemma LoopCallKeepsOwnChan(s: State, t: Tid, a: Action, s': State, c: Cid)
    requires LoopStep(s, t, a, s') || CallStep(s, t, a, s')
    requires ChanKnown(s, t, a, c)
    ensures ChanRefsAt(s', t, IdOf(a), c)
    ensures HoldersFrame(ChanOf(s, c).count.holders, ChanOf(s', c).count.holders, t, IdOf(a))
  {
    hide Exact, SubOk, SubUsersAt, MembersAt, PcAt, TableAt, ChanLockAt, Drop, Dup;
  }

  lemma ReleaseKeepsOwnChan(s: State, t: Tid, a: Action, s': State, c: Cid)
    requires ReleaseStep(s, t, a, s') && ChanKnown(s, t, a, c)
    ensures ChanRefsAt(s', t, IdOf(a), c)
    ensures HoldersFrame(ChanOf(s, c).count.holders, ChanOf(s', c).count.holders, t, IdOf(a))
  {
  }

  lemma LookKeepsOwnChan(s: State, t: Tid, a: Action, s': State, c: Cid)
    requires JoinStep(s, t, a, s') && ChanKnown(s, t, a, c) && (a.LookUp? || a.Check?)
    ensures ChanRefsAt(s', t, IdOf(a), c)
    ensures HoldersFrame(ChanOf(s, c).count.holders, ChanOf(s', c).count.holders, t, IdOf(a))
  {
    hide Exact, SubOk, SubUsersAt, MembersAt, PcAt, ChanLockAt, SubOf, MsgOf, Drop;
  }

  lemma LinkKeepsOwnChan(s: State, t: Tid, a: Action, s': State, c: Cid)
    requires JoinStep(s, t, a, s') && ChanKnown(s, t, a, c) && !a.LookUp? && !a.Check?
    ensures ChanRefsAt(s', t, IdOf(a), c)
    ensures HoldersFrame(ChanOf(s, c).count.holders, ChanOf(s', c).count.holders, t, IdOf(a))
  {
    hide Exact, SubOk, SubUsersAt, MembersAt, PcAt, ChanLockAt, SubOf, MsgOf, Drop;
  }

  lemma JoinKeepsOwnChan(s: State, t: Tid, a: Action, s': State, c: Cid)
    requires JoinStep(s, t, a, s') && ChanKnown(s, t, a, c)
    ensures ChanRefsAt(s', t, IdOf(a), c)
    ensures HoldersFrame(ChanOf(s, c).count.holders, ChanOf(s', c).count.holders, t, IdOf(a))
  {
    hide JoinStep, ChanKnown, ChanRefsAt, HoldersFrame;
    if a.LookUp? || a.Check? { LookKeepsOwnChan(s, t, a, s', c); } else { LinkKeepsOwnChan(s, t, a, s', c); }
  }

  lemma LeaveKeepsOwnChan(s: State, t: Tid, a: Action, s': State, c: Cid)
    requires LeaveStep(s, t, a, s') && ChanKnown(s, t, a, c)
    ensures ChanRefsAt(s', t, IdOf(a), c)
    ensures HoldersFrame(ChanOf(s, c).count.holders, ChanOf(s', c).count.holders, t, IdOf(a))
  {
  }

  lemma QuitKeepsOwnChan(s: State, t: Tid, a: Action, s': State, c: Cid)
    requires QuitStep(s, t, a, s') && ChanKnown(s, t, a, c)
    ensures ChanRefsAt(s', t, IdOf(a), c)
    ensures HoldersFrame(ChanOf(s, c).count.holders, ChanOf(s', c).count.holders, t, IdOf(a))
  {
  }

  lemma StepKeepsOwnChan(s: State, t: Tid, a: Action, s': State, c: Cid)
    requires Next(s, t, a, s') && ChanKnown(s, t, a, c)
    ensures ChanRefsAt(s', t, IdOf(a), c)
    ensures HoldersFrame(ChanOf(s, c).count.holders, ChanOf(s', c).count.holders, t, IdOf(a))
  {
    hide PutStep, TakeStep, PublishStep, WorkStep, LoopStep, CallStep, ReleaseStep, JoinStep, LeaveStep, QuitStep, Frame, HoldersFrame, UseFrame, ChanFrame, SameKey, MsgRefsAt, SubRefsAt, SubUsersAt, ChanRefsAt, MembersAt, TableAt, EntryAt, ChanLockAt, PcAt, Exact, SubOk;
    match PartOf(a)
    case InPut => PutKeepsOwnChan(s, t, a, s', c);
    case InTake => TakeKeepsOwnChan(s, t, a, s', c);
    case InPublish => PublishKeepsOwnChan(s, t, a, s', c);
    case InWork => WorkKeepsOwnChan(s, t, a, s', c);
    case InLoop => LoopCallKeepsOwnChan(s, t, a, s', c);
    case InCall => LoopCallKeepsOwnChan(s, t, a, s', c);
    case InRelease => ReleaseKeepsOwnChan(s, t, a, s', c);
    case InJoin => JoinKeepsOwnChan(s, t, a, s', c);
    case InLeave => LeaveKeepsOwnChan(s, t, a, s', c);
    case InQuit => QuitKeepsOwnChan(s, t, a, s', c);
  }

  lemma PutTakeKeepsOwnLock(s: State, t: Tid, a: Action, s': State, c: Cid)
    requires PutStep(s, t, a, s') || TakeStep(s, t, a, s')
    requires ChanKnown(s, t, a, c)
    ensures ChanLockAt(s', t, c)
  {
  }

  lemma PublishKeepsOwnLock(s: State, t: Tid, a: Action, s': State, c: Cid)
    requires PublishStep(s, t, a, s') && ChanKnown(s, t, a, c)
    ensures ChanLockAt(s', t, c)
  {
    hide Exact, SubOk, SubUsersAt, MembersAt, PcAt, TableAt, ChanRefsAt, Drop;
  }

  lemma WorkKeepsOwnLock(s: State, t: Tid, a: Action, s': State, c: Cid)
    requires WorkStep(s, t, a, s') && ChanKnown(s, t, a, c)
    ensures ChanLockAt(s', t, c)
  {
  }

  lemma LoopCallKeepsOwnLock(s: State, t: Tid, a: Action, s': State, c: Cid)
    requires LoopStep(s, t, a, s') || CallStep(s, t, a, s')
    requires ChanKnown(s, t, a, c)
    ensures ChanLockAt(s', t, c)
  {
    hide Exact, SubOk, SubUsersAt, MembersAt, PcAt, TableAt, ChanRefsAt, Drop, Dup;
  }

  lemma ReleaseKeepsOwnLock(s: State, t: Tid, a: Action, s': State, c: Cid)
    requires ReleaseStep(s, t, a, s') && ChanKnown(s, t, a, c)
    ensures ChanLockAt(s', t, c)
  {
  }

  lemma JoinKeepsOwnLock(s: State, t: Tid, a: Action, s': State, c: Cid)
    requires JoinStep(s, t, a, s') && ChanKnown(s, t, a, c)
    ensures ChanLockAt(s', t, c)
  {
    hide Exact, SubOk, SubUsersAt, MembersAt, ChanRefsAt, TableAt;
  }

  lemma LeaveKeepsOwnLock(s: State, t: Tid, a: Action, s': State, c: Cid)
    requires LeaveStep(s, t, a, s') && ChanKnown(s, t, a, c)
    ensures ChanLockAt(s', t, c)
  {
  }

  lemma QuitKeepsOwnLock(s: State, t: Tid, a: Action, s': State, c: Cid)
    requires QuitStep(s, t, a, s') && ChanKnown(s, t, a, c)
    ensures ChanLockAt(s', t, c)
  {
  }

  lemma StepKeepsOwnLock(s: State, t: Tid, a: Action, s': State, c: Cid)
    requires Next(s, t, a, s') && ChanKnown(s, t, a, c)
    ensures ChanLockAt(s', t, c)
  {
    hide PutStep, TakeStep, PublishStep, WorkStep, LoopStep, CallStep, ReleaseStep, JoinStep, LeaveStep, QuitStep, Frame, HoldersFrame, UseFrame, ChanFrame, SameKey, MsgRefsAt, SubRefsAt, SubUsersAt, ChanRefsAt, MembersAt, TableAt, EntryAt, ChanLockAt, PcAt, Exact, SubOk;
    match PartOf(a)
    case InPut => PutTakeKeepsOwnLock(s, t, a, s', c);
    case InTake => PutTakeKeepsOwnLock(s, t, a, s', c);
    case InPublish => PublishKeepsOwnLock(s, t, a, s', c);
    case InWork => WorkKeepsOwnLock(s, t, a, s', c);
    case InLoop => LoopCallKeepsOwnLock(s, t, a, s', c);
    case InCall => LoopCallKeepsOwnLock(s, t, a, s', c);
    case InRelease => ReleaseKeepsOwnLock(s, t, a, s', c);
    case InJoin => JoinKeepsOwnLock(s, t, a, s', c);
    case InLeave => LeaveKeepsOwnLock(s, t, a, s', c);
    case InQuit => QuitKeepsOwnLock(s, t, a, s', c);
  }

  lemma PutTakeKeepsTable(s: State, t: Tid, a: Action, s': State, c: Cid)
    requires PutStep(s, t, a, s') || TakeStep(s, t, a, s')
    requires ChanKnown(s, t, a, c)
    ensures TableAt(s', c)
  {
  }

  lemma PublishKeepsTable(s: State, t: Tid, a: Action, s': State, c: Cid)
    requires PublishStep(s, t, a, s') && ChanKnown(s, t, a, c)
    ensures TableAt(s', c)
  {
    hide Exact, SubOk, SubUsersAt, MembersAt, PcAt, ChanLockAt, ChanRefsAt, Drop;
  }

  lemma WorkKeepsTable(s: State, t: Tid, a: Action, s': State, c: Cid)
    requires WorkStep(s, t, a, s') && ChanKnown(s, t, a, c)
    ensures TableAt(s', c)
  {
  }

  lemma LoopCallKeepsTable(s: State, t: Tid, a: Action, s': State, c: Cid)
    requires LoopStep(s, t, a, s') || CallStep(s, t, a, s')
    requires ChanKnown(s, t, a, c)
    ensures TableAt(s', c)
  {
  }

  lemma ReleaseKeepsTable(s: State, t: Tid, a: Action, s': State, c: Cid)
    requires ReleaseStep(s, t, a, s') && ChanKnown(s, t, a, c)
    ensures TableAt(s', c)
  {
  }

  lemma JoinKeepsTable(s: State, t: Tid, a: Action, s': State, c: Cid)
    requires JoinStep(s, t, a, s') && ChanKnown(s, t, a, c)
    ensures TableAt(s', c)
  {
  }

  lemma LeaveKeepsTable(s: State, t: Tid, a: Action, s': State, c: Cid)
    requires LeaveStep(s, t, a, s') && ChanKnown(s, t, a, c)
    ensures TableAt(s', c)
  {
  }

  lemma QuitKeepsTable(s: State, t: Tid, a: Action, s': State, c: Cid)
    requires QuitStep(s, t, a, s') && ChanKnown(s, t, a, c)
    ensures TableAt(s', c)
  {
  }

  lemma StepKeepsTable(s: State, t: Tid, a: Action, s': State, c: Cid)
    requires Next(s, t, a, s') && ChanKnown(s, t, a, c)
    ensures TableAt(s', c)
  {
    hide PutStep, TakeStep, PublishStep, WorkStep, LoopStep, CallStep, ReleaseStep, JoinStep, LeaveStep, QuitStep, Frame, HoldersFrame, UseFrame, ChanFrame, SameKey, MsgRefsAt, SubRefsAt, SubUsersAt, ChanRefsAt, MembersAt, TableAt, EntryAt, ChanLockAt, PcAt, Exact, SubOk;
    match PartOf(a)
    case InPut => PutTakeKeepsTable(s, t, a, s', c);
    case InTake => PutTakeKeepsTable(s, t, a, s', c);
    case InPublish => PublishKeepsTable(s, t, a, s', c);
    case InWork => WorkKeepsTable(s, t, a, s', c);
    case InLoop => LoopCallKeepsTable(s, t, a, s', c);
    case InCall => LoopCallKeepsTable(s, t, a, s', c);
    case InRelease => ReleaseKeepsTable(s, t, a, s', c);
    case InJoin => JoinKeepsTable(s, t, a, s', c);
    case InLeave => LeaveKeepsTable(s, t, a, s', c);
    case InQuit => QuitKeepsTable(s, t, a, s', c);
  }

  lemma PutKeepsMembers(s: State, t: Tid, a: Action, s': State, x: Sid, c: Cid)
    requires PutStep(s, t, a, s') && MembersAt(s, x, c) && ChanKnown(s, t, a, c) && SubKnown(s, t, a, x)
    ensures MembersAt(s', x, c)
  {
  }

  lemma TakeKeepsMembers(s: State, t: Tid, a: Action, s': State, x: Sid, c: Cid)
    requires TakeStep(s, t, a, s') && MembersAt(s, x, c) && ChanKnown(s, t, a, c) && SubKnown(s, t, a, x)
    ensures MembersAt(s', x, c)
  {
  }

  lemma PublishKeepsMembers(s: State, t: Tid, a: Action, s': State, x: Sid, c: Cid)
    requires PublishStep(s, t, a, s') && MembersAt(s, x, c) && ChanKnown(s, t, a, c) && SubKnown(s, t, a, x)
    ensures MembersAt(s', x, c)
  {
    hide Exact, SubOk, SubUsersAt, PcAt, ChanLockAt, ChanRefsAt, SubRefsAt;
  }

  lemma WorkKeepsMembers(s: State, t: Tid, a: Action, s': State, x: Sid, c: Cid)
    requires WorkStep(s, t, a, s') && MembersAt(s, x, c) && ChanKnown(s, t, a, c) && SubKnown(s, t, a, x)
    ensures MembersAt(s', x, c)
  {
    hide Exact, SubOk, SubUsersAt, PcAt, ChanLockAt, ChanRefsAt, SubRefsAt;
  }

  lemma LoopKeepsMembers(s: State, t: Tid, a: Action, s': State, x: Sid, c: Cid)
    requires LoopStep(s, t, a, s') && MembersAt(s, x, c) && ChanKnown(s, t, a, c) && SubKnown(s, t, a, x)
    ensures MembersAt(s', x, c)
  {
  }

  lemma CallKeepsMembers(s: State, t: Tid, a: Action, s': State, x: Sid, c: Cid)
    requires CallStep(s, t, a, s') && MembersAt(s, x, c) && ChanKnown(s, t, a, c) && SubKnown(s, t, a, x)
    ensures MembersAt(s', x, c)
  {
    hide Exact, SubOk, SubUsersAt, PcAt, ChanLockAt, ChanRefsAt, SubRefsAt;
  }

  lemma ReleaseKeepsMembers(s: State, t: Tid, a: Action, s': State, x: Sid, c: Cid)
    requires ReleaseStep(s, t, a, s') && MembersAt(s, x, c) && ChanKnown(s, t, a, c) && SubKnown(s, t, a, x)
    ensures MembersAt(s', x, c)
  {
  }

  lemma JoinKeepsMembers(s: State, t: Tid, a: Action, s': State, x: Sid, c: Cid)
    requires JoinStep(s, t, a, s') && MembersAt(s, x, c) && ChanKnown(s, t, a, c) && SubKnown(s, t, a, x)
    ensures MembersAt(s', x, c)
  {
    hide Exact, ChanLockAt, ChanRefsAt, SubRefsAt;
  }

  lemma LeaveKeepsMembers(s: State, t: Tid, a: Action, s': State, x: Sid, c: Cid)
    requires LeaveStep(s, t, a, s') && MembersAt(s, x, c) && ChanKnown(s, t, a, c) && SubKnown(s, t, a, x)
    ensures MembersAt(s', x, c)
  {
  }

  lemma QuitKeepsMembers(s: State, t: Tid, a: Action, s': State, x: Sid, c: Cid)
    requires QuitStep(s, t, a, s') && MembersAt(s, x, c) && ChanKnown(s, t, a, c) && SubKnown(s, t, a, x)
    ensures MembersAt(s', x, c)
  {
  }

  lemma StepKeepsMembers(s: State, t: Tid, a: Action, s': State, x: Sid, c: Cid)
    requires Next(s, t, a, s') && MembersAt(s, x, c) && ChanKnown(s, t, a, c) && SubKnown(s, t, a, x)
    ensures MembersAt(s', x, c)
  {
    hide PutStep, TakeStep, PublishStep, WorkStep, LoopStep, CallStep, ReleaseStep, JoinStep, LeaveStep, QuitStep, Frame, HoldersFrame, UseFrame, ChanFrame, SameKey, MsgRefsAt, SubRefsAt, SubUsersAt, ChanRefsAt, MembersAt, TableAt, EntryAt, ChanLockAt, PcAt, Exact, SubOk;
    match PartOf(a)
    case InPut => PutKeepsMembers(s, t, a, s', x, c);
    case InTake => TakeKeepsMembers(s, t, a, s', x, c);
    case InPublish => PublishKeepsMembers(s, t, a, s', x, c);
    case InWork => WorkKeepsMembers(s, t, a, s', x, c);
    case InLoop => LoopKeepsMembers(s, t, a, s', x, c);
    case InCall => CallKeepsMembers(s, t, a, s', x, c);
    case InRelease => ReleaseKeepsMembers(s, t, a, s', x, c);
    case InJoin => JoinKeepsMembers(s, t, a, s', x, c);
    case InLeave => LeaveKeepsMembers(s, t, a, s', x, c);
    case InQuit => QuitKeepsMembers(s, t, a, s', x, c);
  }

  lemma PutTakeChanFrame(s: State, t: Tid, a: Action, s': State, c: Cid)
    requires PutStep(s, t, a, s') || TakeStep(s, t, a, s')
    requires ChanKnown(s, t, a, c)
    ensures ChanFrame(ChanOf(s, c), ChanOf(s', c), t) && SameKey(s, s', c)
  {
  }

  lemma PublishChanFrame(s: State, t: Tid, a: Action, s': State, c: Cid)
    requires PublishStep(s, t, a, s') && ChanKnown(s, t, a, c)
    ensures ChanFrame(ChanOf(s, c), ChanOf(s', c), t) && SameKey(s, s', c)
  {
    hide Exact, SubOk, SubUsersAt, MembersAt, PcAt, TableAt, ChanLockAt, ChanRefsAt, Drop;
  }

  lemma WorkChanFrame(s: State, t: Tid, a: Action, s': State, c: Cid)
    requires WorkStep(s, t, a, s') && ChanKnown(s, t, a, c)
    ensures ChanFrame(ChanOf(s, c), ChanOf(s', c), t) && SameKey(s, s', c)
  {
  }

  lemma LoopCallChanFrame(s: State, t: Tid, a: Action, s': State, c: Cid)
    requires LoopStep(s, t, a, s') || CallStep(s, t, a, s')
    requires ChanKnown(s, t, a, c)
    ensures ChanFrame(ChanOf(s, c), ChanOf(s', c), t) && SameKey(s, s', c)
  {
  }

  lemma ReleaseChanFrame(s: State, t: Tid, a: Action, s': State, c: Cid)
    requires ReleaseStep(s, t, a, s') && ChanKnown(s, t, a, c)
    ensures ChanFrame(ChanOf(s, c), ChanOf(s', c), t) && SameKey(s, s', c)
  {
  }

  lemma JoinChanFrame(s: State, t: Tid, a: Action, s': State, c: Cid)
    requires JoinStep(s, t, a, s') && ChanKnown(s, t, a, c)
    ensures ChanFrame(ChanOf(s, c), ChanOf(s', c), t) && SameKey(s, s', c)
  {
  }

  lemma LeaveChanFrame(s: State, t: Tid, a: Action, s': State, c: Cid)
    requires LeaveStep(s, t, a, s') && ChanKnown(s, t, a, c)
    ensures ChanFrame(ChanOf(s, c), ChanOf(s', c), t) && SameKey(s, s', c)
  {
  }

  lemma QuitChanFrame(s: State, t: Tid, a: Action, s': State, c: Cid)
    requires QuitStep(s, t, a, s') && ChanKnown(s, t, a, c)
    ensures ChanFrame(ChanOf(s, c), ChanOf(s', c), t) && SameKey(s, s', c)
  {
  }

  lemma StepChanFrame(s: State, t: Tid, a: Action, s': State, c: Cid)
    requires Next(s, t, a, s') && ChanKnown(s, t, a, c)
    ensures ChanFrame(ChanOf(s, c), ChanOf(s', c), t) && SameKey(s, s', c)
  {
    hide PutStep, TakeStep, PublishStep, WorkStep, LoopStep, CallStep, ReleaseStep, JoinStep, LeaveStep, QuitStep, Frame, HoldersFrame, UseFrame, ChanFrame, SameKey, MsgRefsAt, SubRefsAt, SubUsersAt, ChanRefsAt, MembersAt, TableAt, EntryAt, ChanLockAt, PcAt, Exact, SubOk;
    match PartOf(a)
    case InPut => PutTakeChanFrame(s, t, a, s', c);
    case InTake => PutTakeChanFrame(s, t, a, s', c);
    case InPublish => PublishChanFrame(s, t, a, s', c);
    case InWork => WorkChanFrame(s, t, a, s', c);
    case InLoop => LoopCallChanFrame(s, t, a, s', c);
    case InCall => LoopCallChanFrame(s, t, a, s', c);
    case InRelease => ReleaseChanFrame(s, t, a, s', c);
    case InJoin => JoinChanFrame(s, t, a, s', c);
    case InLeave => LeaveChanFrame(s, t, a, s', c);
    case InQuit => QuitChanFrame(s, t, a, s', c);
  }

  lemma FrameKeepsChan(s: State, t: Tid, j: Id, s': State, u: Tid, i: Id, c: Cid)
    requires Frame(s, t, j, s') && HoldersFrame(ChanOf(s, c).count.holders, ChanOf(s', c).count.holders, t, j)
    requires ChanRefsAt(s', t, j, c) && ChanRefsAt(s, u, i, c)
    ensures ChanRefsAt(s', u, i, c)
  {
  }

  lemma FrameKeepsLock(s: State, t: Tid, i: Id, s': State, u: Tid, c: Cid)
    requires Frame(s, t, i, s') && ChanFrame(ChanOf(s, c), ChanOf(s', c), t) && ChanLockAt(s, u, c) && u != t
    ensures ChanLockAt(s', u, c)
  {
  }

  lemma PutTakeKeepsEntry(s: State, t: Tid, a: Action, s': State, k: Key)
    requires PutStep(s, t, a, s') || TakeStep(s, t, a, s')
    requires EntryAt(s, k) && (k in s.table ==> SameKey(s, s', s.table[k]))
    ensures EntryAt(s', k)
  {
  }

  lemma PublishKeepsEntry(s: State, t: Tid, a: Action, s': State, k: Key)
    requires PublishStep(s, t, a, s')
    requires EntryAt(s, k) && (k in s.table ==> SameKey(s, s', s.table[k]))
    ensures EntryAt(s', k)
  {
  }

  lemma WorkLoopKeepsEntry(s: State, t: Tid, a: Action, s': State, k: Key)
    requires WorkStep(s, t, a, s') || LoopStep(s, t, a, s')
    requires EntryAt(s, k) && (k in s.table ==> SameKey(s, s', s.table[k]))
    ensures EntryAt(s', k)
  {
  }

  lemma CallReleaseKeepsEntry(s: State, t: Tid, a: Action, s': State, k: Key)
    requires CallStep(s, t, a, s') || ReleaseStep(s, t, a, s')
    requires EntryAt(s, k) && (k in s.table ==> SameKey(s, s', s.table[k]))
    ensures EntryAt(s', k)
  {
  }

  lemma JoinKeepsEntry(s: State, t: Tid, a: Action, s': State, k: Key)
    requires JoinStep(s, t, a, s') && EntryAt(s, k) && (k in s.table ==> SameKey(s, s', s.table[k]))
    ensures EntryAt(s', k)
  {
  }

  lemma LeaveQuitKeepsEntry(s: State, t: Tid, a: Action, s': State, k: Key)
    requires LeaveStep(s, t, a, s') || QuitStep(s, t, a, s')
    requires EntryAt(s, k) && (k in s.table ==> SameKey(s, s', s.table[k]))
    ensures EntryAt(s', k)
  {
  }

  lemma StepKeepsEntry(s: State, t: Tid, a: Action, s': State, k: Key)
    requires Next(s, t, a, s') && EntryAt(s, k) && (k in s.table ==> SameKey(s, s', s.table[k]))
    ensures EntryAt(s', k)
  {
    hide PutStep, TakeStep, PublishStep, WorkStep, LoopStep, CallStep, ReleaseStep, JoinStep, LeaveStep, QuitStep, Frame, HoldersFrame, UseFrame, ChanFrame, SameKey, MsgRefsAt, SubRefsAt, SubUsersAt, ChanRefsAt, MembersAt, TableAt, EntryAt, ChanLockAt, PcAt, Exact, SubOk;
    match PartOf(a)
    case InPut => PutTakeKeepsEntry(s, t, a, s', k);
    case InTake => PutTakeKeepsEntry(s, t, a, s', k);
    case InPublish => PublishKeepsEntry(s, t, a, s', k);
    case InWork => WorkLoopKeepsEntry(s, t, a, s', k);
    case InLoop => WorkLoopKeepsEntry(s, t, a, s', k);
    case InCall => CallReleaseKeepsEntry(s, t, a, s', k);
    case InRelease => CallReleaseKeepsEntry(s, t, a, s', k);
    case InJoin => JoinKeepsEntry(s, t, a, s', k);
    case InLeave => LeaveQuitKeepsEntry(s, t, a, s', k);
    case InQuit => LeaveQuitKeepsEntry(s, t, a, s', k);
  }

  // ---------------------------------------------------------------------------------------------
  // What an activity knows about its channel

  /** What the invariant says about the subscription and the channel an activity is at. */
  ghost predicate PcKnown(s: State, t: Tid) {
    var pc := PcOf(s, t);
    && PcAt(s, t)
    && (pc.Joining? ==> EntryAt(s, pc.key) && TableAt(s, pc.c))
    && (pc.Leaving? ==> SubUsersAt(s, t, pc.x) && MembersAt(s, pc.x, pc.c))
  }

  lemma PutTakeKeepsOwnPc(s: State, t: Tid, a: Action, s': State)
    requires PutStep(s, t, a, s') || TakeStep(s, t, a, s')
    requires PcKnown(s, t)
    ensures PcAt(s', t)
  {
  }

  lemma PublishKeepsOwnPc(s: State, t: Tid, a: Action, s': State)
    requires PublishStep(s, t, a, s') && PcKnown(s, t)
    ensures PcAt(s', t)
  {
    hide TableAt, MembersAt, SubUsersAt, EntryAt;
  }

  lemma WorkLoopKeepsOwnPc(s: State, t: Tid, a: Action, s': State)
    requires WorkStep(s, t, a, s') || LoopStep(s, t, a, s')
    requires PcKnown(s, t)
    ensures PcAt(s', t)
  {
    hide TableAt, MembersAt, SubUsersAt, EntryAt;
  }

  lemma CallReleaseKeepsOwnPc(s: State, t: Tid, a: Action, s': State)
    requires CallStep(s, t, a, s') || ReleaseStep(s, t, a, s')
    requires PcKnown(s, t)
    ensures PcAt(s', t)
  {
  }

  lemma JoinKeepsOwnPc(s: State, t: Tid, a: Action, s': State)
    requires JoinStep(s, t, a, s') && PcKnown(s, t)
    ensures PcAt(s', t)
  {
  }

  lemma LeaveQuitKeepsOwnPc(s: State, t: Tid, a: Action, s': State)
    requires LeaveStep(s, t, a, s') || QuitStep(s, t, a, s')
    requires PcKnown(s, t)
    ensures PcAt(s', t)
  {
  }

  lemma StepKeepsOwnPc(s: State, t: Tid, a: Action, s': State)
    requires Next(s, t, a, s') && PcKnown(s, t)
    ensures PcAt(s', t)
  {
    hide PutStep, TakeStep, PublishStep, WorkStep, LoopStep, CallStep, ReleaseStep, JoinStep, LeaveStep, QuitStep, Frame, HoldersFrame, UseFrame, ChanFrame, SameKey, MsgRefsAt, SubRefsAt, SubUsersAt, ChanRefsAt, MembersAt, TableAt, EntryAt, ChanLockAt, PcAt, Exact, SubOk;
    match PartOf(a)
    case InPut => PutTakeKeepsOwnPc(s, t, a, s');
    case InTake => PutTakeKeepsOwnPc(s, t, a, s');
    case InPublish => PublishKeepsOwnPc(s, t, a, s');
    case InWork => WorkLoopKeepsOwnPc(s, t, a, s');
    case InLoop => WorkLoopKeepsOwnPc(s, t, a, s');
    case InCall => CallReleaseKeepsOwnPc(s, t, a, s');
    case InRelease => CallReleaseKeepsOwnPc(s, t, a, s');
    case InJoin => JoinKeepsOwnPc(s, t, a, s');
    case InLeave => LeaveQuitKeepsOwnPc(s, t, a, s');
    case InQuit => LeaveQuitKeepsOwnPc(s, t, a, s');
  }

  /** The subscription and the channel another activity is at. */
  function XOf(pc: Pc): Sid {
    if pc.Idle? || pc.Publishing? then 0 else pc.x
  }

  function COf(pc: Pc): Cid {
    if pc.Publishing? || pc.Working? || pc.Parted? || pc.Joining? || pc.Leaving? then pc.c else 0
  }

  lemma FrameKeepsPc(s: State, t: Tid, i: Id, s': State, u: Tid)
    requires Frame(s, t, i, s') && u != t && PcAt(s, u)
    requires var c := COf(PcOf(s, u));
      ChanFrame(ChanOf(s, c), ChanOf(s', c), t) && SameKey(s, s', c) && ChanLockAt(s, u, c)
    requires var x := XOf(PcOf(s, u));
      UseFrame(SubOf(s, x), SubOf(s', x), t) && SubUsersAt(s, u, x) && (x in s.subs ==> SubOk(s.subs[x]))
    ensures PcAt(s', u)
  {
  }
}
