/** Whole runs of publishing and subscribing. */
module PubSubRuns {
  import opened Options
  import opened PubSub
  import opened PubSubHolders
  import opened PubSubSteps

  lemma Here(s: State, u: Tid, i: Id, m: Mid, x: Sid, c: Cid, k: Key)
    requires Inv(s)
    ensures InvAt(s, u, i, m, x, c, k)
  {
  }

  lemma KnownHere(s: State, t: Tid, a: Action, x: Sid, c: Cid)
    requires Inv(s)
    ensures SubKnown(s, t, a, x) && ChanKnown(s, t, a, c) && PcKnown(s, t)
  {
    var pc := PcOf(s, t);
    Here(s, t, IdOf(a), 0, x, c, if a.Find? then a.key else if pc.Joining? then pc.key else 0);
    Here(s, t, IdOf(a), 0, MemberIn(s, t), c, if pc.Joining? then pc.key else 0);
    Here(s, t, IdOf(a), 0, MemberIn(s, t), COf(pc), 0);
  }

  lemma StepKeepsMsg(s: State, t: Tid, a: Action, s': State, u: Tid, i: Id, m: Mid)
    requires Inv(s) && Next(s, t, a, s')
    ensures MsgRefsAt(s', u, i, m) && (m in s'.msgs ==> Exact(s'.msgs[m]))
  {
    hide Next, Inv, Frame, HoldersFrame, UseFrame, ChanFrame, SameKey, MsgRefsAt, SubRefsAt, SubUsersAt, ChanRefsAt, MembersAt, TableAt, EntryAt, ChanLockAt, PcAt, Exact, SubOk;
    Here(s, u, i, m, 0, 0, 0);
    Here(s, t, IdOf(a), m, 0, 0, 0);
    StepFrame(s, t, a, s');
    StepKeepsMsgExact(s, t, a, s', m);
    StepKeepsOwnMsg(s, t, a, s', m);
    FrameKeepsMsg(s, t, IdOf(a), s', u, i, m);
  }

  /** A subscription that is about to get a delivery is in the list. */
  lemma NextIsListed(s: State, t: Tid, a: Action, s': State, x: Sid)
    requires Inv(s) && Next(s, t, a, s') && a == NextSub(x)
    ensures SubOf(s, x).listed
  {
    assert LoopStep(s, t, a, s');
    Here(s, t, 0, 0, x, PcOf(s, t).c, 0);
  }

  lemma StepKeepsSub(s: State, t: Tid, a: Action, s': State, u: Tid, i: Id, x: Sid)
    requires Inv(s) && Next(s, t, a, s')
    ensures SubRefsAt(s', u, i, x) && (x in s'.subs ==> SubOk(s'.subs[x]))
  {
    hide Next, Inv, Frame, HoldersFrame, UseFrame, ChanFrame, SameKey, MsgRefsAt, SubRefsAt, SubUsersAt, ChanRefsAt, MembersAt, TableAt, EntryAt, ChanLockAt, PcAt, Exact, SubOk;
    KnownHere(s, t, a, x, 0);
    Here(s, u, i, 0, x, 0, 0);
    StepFrame(s, t, a, s');
    if a == NextSub(x) { NextIsListed(s, t, a, s', x); }
    StepKeepsSubOk(s, t, a, s', x);
    StepKeepsOwnSub(s, t, a, s', x);
    FrameKeepsSub(s, t, IdOf(a), s', u, i, x);
  }

  lemma StepKeepsUse(s: State, t: Tid, a: Action, s': State, u: Tid, x: Sid)
    requires Inv(s) && Next(s, t, a, s')
    ensures SubUsersAt(s', u, x)
  {
    hide Next, Inv, Frame, HoldersFrame, UseFrame, ChanFrame, SameKey, MsgRefsAt, SubRefsAt, SubUsersAt, ChanRefsAt, MembersAt, TableAt, EntryAt, ChanLockAt, PcAt, Exact, SubOk;
    KnownHere(s, t, a, x, 0);
    Here(s, u, 0, 0, x, 0, 0);
    StepFrame(s, t, a, s');
    StepUseFrame(s, t, a, s', x);
    if u != t { FrameKeepsUse(s, t, IdOf(a), s', u, x); } else { StepKeepsOwnUse(s, t, a, s', x); }
  }

  lemma StepKeepsChan(s: State, t: Tid, a: Action, s': State, u: Tid, i: Id, c: Cid)
    requires Inv(s) && Next(s, t, a, s')
    ensures ChanRefsAt(s', u, i, c) && (c in s'.chans ==> Exact(s'.chans[c].count)) && TableAt(s', c)
  {
    hide Next, Inv, Frame, HoldersFrame, UseFrame, ChanFrame, SameKey, MsgRefsAt, SubRefsAt, SubUsersAt, ChanRefsAt, MembersAt, TableAt, EntryAt, ChanLockAt, PcAt, Exact, SubOk;
    KnownHere(s, t, a, 0, c);
    Here(s, u, i, 0, 0, c, 0);
    StepFrame(s, t, a, s');
    StepKeepsChanExact(s, t, a, s', c);
    StepKeepsTable(s, t, a, s', c);
    StepKeepsOwnChan(s, t, a, s', c);
    FrameKeepsChan(s, t, IdOf(a), s', u, i, c);
  }

  lemma StepKeepsLockAndMembers(s: State, t: Tid, a: Action, s': State, u: Tid, x: Sid, c: Cid)
    requires Inv(s) && Next(s, t, a, s')
    ensures ChanLockAt(s', u, c) && MembersAt(s', x, c)
  {
    hide Next, Inv, Frame, HoldersFrame, UseFrame, ChanFrame, SameKey, MsgRefsAt, SubRefsAt, SubUsersAt, ChanRefsAt, MembersAt, TableAt, EntryAt, ChanLockAt, PcAt, Exact, SubOk;
    KnownHere(s, t, a, x, c);
    Here(s, u, 0, 0, x, c, 0);
    StepFrame(s, t, a, s');
    StepChanFrame(s, t, a, s', c);
    StepKeepsMembers(s, t, a, s', x, c);
    if u != t { FrameKeepsLock(s, t, IdOf(a), s', u, c); } else { StepKeepsOwnLock(s, t, a, s', c); }
  }

  lemma StepKeepsPc(s: State, t: Tid, a: Action, s': State, u: Tid)
    requires Inv(s) && Next(s, t, a, s')
    ensures PcAt(s', u)
  {
    hide Next, Inv, Frame, HoldersFrame, UseFrame, ChanFrame, SameKey, MsgRefsAt, SubRefsAt, SubUsersAt, ChanRefsAt, MembersAt, TableAt, EntryAt, ChanLockAt, PcAt, Exact, SubOk;
    var x, c := XOf(PcOf(s, u)), COf(PcOf(s, u));
    KnownHere(s, t, a, x, c);
    Here(s, u, 0, 0, x, c, 0);
    if u == t {
      StepKeepsOwnPc(s, t, a, s');
    } else {
      StepFrame(s, t, a, s');
      StepUseFrame(s, t, a, s', x);
      StepChanFrame(s, t, a, s', c);
      FrameKeepsPc(s, t, IdOf(a), s', u);
    }
  }

  lemma StepKeepsEntries(s: State, t: Tid, a: Action, s': State, k: Key)
    requires Inv(s) && Next(s, t, a, s')
    ensures EntryAt(s', k)
  {
    hide Next, Inv, Frame, HoldersFrame, UseFrame, ChanFrame, SameKey, MsgRefsAt, SubRefsAt, SubUsersAt, ChanRefsAt, MembersAt, TableAt, EntryAt, ChanLockAt, PcAt, Exact, SubOk;
    Here(s, t, 0, 0, 0, 0, k);
    if k in s.table {
      KnownHere(s, t, a, 0, s.table[k]);
      StepChanFrame(s, t, a, s', s.table[k]);
    }
    StepKeepsEntry(s, t, a, s', k);
  }

  lemma StepKeeps(s: State, t: Tid, a: Action, s': State)
    requires Inv(s) && Next(s, t, a, s')
    ensures Inv(s')
  {
    hide Next, MsgRefsAt, SubRefsAt, SubUsersAt, ChanRefsAt, MembersAt, TableAt, EntryAt, ChanLockAt, PcAt, Exact, SubOk;
    forall u: Tid, i: Id, m: Mid, x: Sid, c: Cid, k: Key ensures InvAt(s', u, i, m, x, c, k) {
      StepKeepsMsg(s, t, a, s', u, i, m);
      StepKeepsSub(s, t, a, s', u, i, x);
      StepKeepsUse(s, t, a, s', u, x);
      StepKeepsChan(s, t, a, s', u, i, c);
      StepKeepsLockAndMembers(s, t, a, s', u, x, c);
      StepKeepsPc(s, t, a, s', u);
      StepKeepsEntries(s, t, a, s', k);
    }
  }

  ghost predicate IsRun(states: seq<State>, moves: seq<(Tid, Action)>) {
    && |states| == |moves| + 1 && Init(states[0])
    && forall i :: 0 <= i < |moves| ==> Next(states[i], moves[i].0, moves[i].1, states[i + 1])
  }

  lemma {:induction false} RunKeeps(states: seq<State>, moves: seq<(Tid, Action)>, i: nat)
    requires IsRun(states, moves) && i <= |moves|
    ensures Inv(states[i])
  {
    hide Next;
    if i > 0 {
      RunKeeps(states, moves, i - 1);
      StepKeeps(states[i - 1], moves[i - 1].0, moves[i - 1].1, states[i]);
    }
  }

  // ---------------------------------------------------------------------------------------------
  // What holds in every run

  lemma {:induction false} RunBounded(states: seq<State>, moves: seq<(Tid, Action)>, i: nat, m: Mid, x: Sid, c: Cid)
    requires IsRun(states, moves) && i <= |moves|
    ensures Bound(states[i], m, x, c)
  {
    hide Next;
    if i > 0 {
      RunBounded(states, moves, i - 1, m, x, c);
      StepKeepsBound(states[i - 1], moves[i - 1].0, moves[i - 1].1, states[i], m, x, c);
    }
  }

  /** Who holds a message: activities, tasks in the queue, and packets that wait at a socket. */
  ghost predicate HoldsMsg(s: State, tok: Token, m: Mid) {
    match tok
    case Held(u, second) => if second then HasSecond(PcOf(s, u), m) else HasMsg(PcOf(s, u), m)
    case Task(i) => i in s.queue && s.queue[i].m == m
    case Sent(i) => i in s.packets && s.packets[i] == m
    case _ => false
  }

  /** Who holds a subscription: deliveries, tasks, and the program until `fio_unsubscribe` lets go of it. */
  ghost predicate HoldsSub(s: State, tok: Token, x: Sid) {
    match tok
    case Held(u, second) => !second && HasSub(PcOf(s, u), x)
    case Task(i) => i in s.queue && s.queue[i].ToSub? && s.queue[i].x == x
    case Owner => SubOf(s, x).phase != Gone
    case _ => false
  }

  /** Who holds a channel: activities, tasks, its subscriptions and the table. */
  ghost predicate HoldsChan(s: State, tok: Token, c: Cid) {
    match tok
    case Held(u, second) => !second && HasChan(PcOf(s, u), c)
    case Task(i) => i in s.queue && s.queue[i].ToChannel? && s.queue[i].c == c
    case Member(x) => SubOf(s, x).parent == Some(c)
    case Table => ChanOf(s, c).key in s.table && s.table[ChanOf(s, c).key] == c
    case _ => false
  }

  /** The activity and the task or packet a token stands for. */
  function UOf(tok: Token): Tid {
    if tok.Held? then tok.t else 0
  }

  function IOf(tok: Token): Id {
    if tok.Task? || tok.Sent? then tok.i else 0
  }

  /** A message's count is the number of its holders, and these are its only ones; it is freed when there is
      none left, and once. */
  lemma MessageCountExact(states: seq<State>, moves: seq<(Tid, Action)>, n: nat, m: Mid)
    requires IsRun(states, moves) && n <= |moves| && m in states[n].msgs
    ensures var s, c := states[n], states[n].msgs[m];
      && c.ref == |c.holders| && c.frees == (if c.ref == 0 then 1 else 0)
      && forall tok: Token :: tok in c.holders <==> HoldsMsg(s, tok, m)
  {
    RunKeeps(states, moves, n);
    RunBounded(states, moves, n, m, 0, 0);
    var s := states[n];
    hide IsRun;
    Here(s, 0, 0, m, 0, 0, 0);
    forall tok: Token ensures tok in s.msgs[m].holders <==> HoldsMsg(s, tok, m) {
      Here(s, UOf(tok), IOf(tok), m, 0, 0, 0);
    }
  }

  /** The same for a subscription. */
  lemma SubscriptionCountExact(states: seq<State>, moves: seq<(Tid, Action)>, n: nat, x: Sid)
    requires IsRun(states, moves) && n <= |moves| && x in states[n].subs
    ensures var s, c := states[n], states[n].subs[x].count;
      && c.ref == |c.holders| && c.frees == (if c.ref == 0 then 1 else 0)
      && forall tok: Token :: tok in c.holders <==> HoldsSub(s, tok, x)
  {
    RunKeeps(states, moves, n);
    RunBounded(states, moves, n, 0, x, 0);
    var s := states[n];
    hide IsRun;
    Here(s, 0, 0, 0, x, 0, 0);
    forall tok: Token ensures tok in s.subs[x].count.holders <==> HoldsSub(s, tok, x) {
      Here(s, UOf(tok), IOf(tok), 0, x, 0, 0);
    }
  }

  /** And for a channel. */
  lemma ChannelCountExact(states: seq<State>, moves: seq<(Tid, Action)>, n: nat, c: Cid)
    requires IsRun(states, moves) && n <= |moves| && c in states[n].chans
    ensures var s, k := states[n], states[n].chans[c].count;
      && k.ref == |k.holders| && k.frees == (if k.ref == 0 then 1 else 0)
      && forall tok: Token :: tok in k.holders <==> HoldsChan(s, tok, c)
  {
    RunKeeps(states, moves, n);
    RunBounded(states, moves, n, 0, 0, c);
    var s := states[n];
    hide IsRun;
    Here(s, 0, 0, 0, 0, c, 0);
    forall tok: Token ensures tok in s.chans[c].count.holders <==> HoldsChan(s, tok, c) {
      Here(s, UOf(tok), IOf(tok), 0, if tok.Member? then tok.x else 0, c, 0);
    }
  }

  /** A message is freed exactly when no activity, no task and no packet has it any more: none is leaked. */
  lemma MessageFreedIff(states: seq<State>, moves: seq<(Tid, Action)>, n: nat, m: Mid)
    requires IsRun(states, moves) && n <= |moves| && m in states[n].msgs
    ensures var s := states[n];
      s.msgs[m].frees == 1 <==>
        && (forall u: Tid :: !HasMsg(PcOf(s, u), m) && !HasSecond(PcOf(s, u), m))
        && (forall i: Id :: i in s.queue ==> s.queue[i].m != m)
        && (forall i: Id :: i in s.packets ==> s.packets[i] != m)
  {
    MessageCountExact(states, moves, n, m);
    var s, h := states[n], states[n].msgs[m].holders;
    hide IsRun;
    if h == {} {
      forall u: Tid ensures !HasMsg(PcOf(s, u), m) && !HasSecond(PcOf(s, u), m) {
        assert Held(u, false) !in h && Held(u, true) !in h;
      }
      forall i: Id ensures i in s.queue ==> s.queue[i].m != m {
        assert Task(i) !in h;
      }
      forall i: Id ensures i in s.packets ==> s.packets[i] != m {
        assert Sent(i) !in h;
      }
    } else {
      var tok :| tok in h;
      assert HoldsMsg(s, tok, m);
    }
  }

  /** A subscription is freed exactly when it is unsubscribed and nothing is pending for it. */
  lemma SubscriptionFreedIff(states: seq<State>, moves: seq<(Tid, Action)>, n: nat, x: Sid)
    requires IsRun(states, moves) && n <= |moves| && x in states[n].subs
    ensures states[n].subs[x].count.frees == 1 <==> LetGoOf(states[n], x)
  {
    SubscriptionCountExact(states, moves, n, x);
    var s, h := states[n], states[n].subs[x].count.holders;
    hide IsRun;
    if h == {} {
      assert Owner !in h;
      forall u: Tid ensures !HasSub(PcOf(s, u), x) {
        assert Held(u, false) !in h;
      }
      forall i: Id ensures i in s.queue ==> !(s.queue[i].ToSub? && s.queue[i].x == x) {
        assert Task(i) !in h;
      }
    } else {
      var tok :| tok in h;
      assert HoldsSub(s, tok, x);
    }
  }

  /** The program has unsubscribed it, no activity delivers to it and no task is queued for it. */
  ghost predicate LetGoOf(s: State, x: Sid) {
    && SubOf(s, x).phase == Gone
    && (forall u: Tid :: !HasSub(PcOf(s, u), x))
    && (forall i: Id :: i in s.queue ==> !(s.queue[i].ToSub? && s.queue[i].x == x))
  }

  /** A channel is freed exactly when it is out of the table and no subscription, activity or task has it. */
  lemma ChannelFreedIff(states: seq<State>, moves: seq<(Tid, Action)>, n: nat, c: Cid)
    requires IsRun(states, moves) && n <= |moves| && c in states[n].chans
    ensures states[n].chans[c].count.frees == (if Kept(states[n], c) then 0 else 1)
  {
    ChannelCountExact(states, moves, n, c);
    var s, h := states[n], states[n].chans[c].count.holders;
    hide IsRun;
    if h == {} {
      assert Table !in h;
      forall x: Sid ensures SubOf(s, x).parent != Some(c) {
        assert Member(x) !in h;
      }
      forall u: Tid ensures !HasChan(PcOf(s, u), c) {
        assert Held(u, false) !in h;
      }
      forall i: Id ensures i in s.queue ==> !(s.queue[i].ToChannel? && s.queue[i].c == c) {
        assert Task(i) !in h;
      }
    } else {
      var tok :| tok in h;
      assert HoldsChan(s, tok, c);
    }
  }

  /** The channel is in the table, or some subscription belongs to it, or an activity or a task has it. */
  ghost predicate Kept(s: State, c: Cid) {
    || (ChanOf(s, c).key in s.table && s.table[ChanOf(s, c).key] == c)
    || (exists x: Sid :: SubOf(s, x).parent == Some(c))
    || (exists u: Tid :: HasChan(PcOf(s, u), c))
    || (exists i: Id :: i in s.queue && s.queue[i].ToChannel? && s.queue[i].c == c)
  }

  /** The activity uses the subscription: in a delivery, as its subscriber or in its unsubscription. */
  predicate UsesSub(pc: Pc, x: Sid) {
    HasSub(pc, x) || (pc.Joining? && pc.join != Joined && pc.x == x) || (pc.Leaving? && pc.x == x)
  }

  /** Nothing that is freed is used again: no message or subscription by any activity, and no channel but
      by a subscriber that has looked it up and not yet found it confirmed (`LookedUpChannelIsThere`). */
  lemma NothingUsedAfterFree(states: seq<State>, moves: seq<(Tid, Action)>, n: nat, u: Tid)
    requires IsRun(states, moves) && n <= |moves|
    ensures var s, pc := states[n], PcOf(states[n], u);
      && (pc.Publishing? || (pc.Working? && pc.job != LoopDone && pc.job != JobDone) || (pc.Delivering? && pc.del != LettingGo)
          ==> MsgOf(s, pc.m).frees == 0 < MsgOf(s, pc.m).ref)
      && (forall x: Sid :: UsesSub(pc, x) ==> SubOf(s, x).count.frees == 0 < SubOf(s, x).count.ref)
      && (HasChan(pc, COf(pc)) || pc.Parted? || (pc.Joining? && (pc.join == Confirmed || pc.join == Joined))
          || (pc.Leaving? && InsideOrJustOut(pc.leave))
          ==> ChanOf(s, COf(pc)).count.frees == 0 < ChanOf(s, COf(pc)).count.ref)
  {
    RunKeeps(states, moves, n);
    var s, pc := states[n], PcOf(states[n], u);
    Here(s, u, 0, if pc.Publishing? || pc.Working? || pc.Delivering? then pc.m else 0, XOf(pc), COf(pc), 0);
    forall x: Sid | UsesSub(pc, x) ensures SubOf(s, x).count.frees == 0 < SubOf(s, x).count.ref {
      Here(s, u, 0, 0, x, 0, 0);
    }
  }

  /** A subscriber that has looked a channel up, locks it, or tries again with it as its template, finds it
      still there if and only if it is in the table or another subscription, activity or task keeps it. */
  lemma LookedUpChannelIsThere(states: seq<State>, moves: seq<(Tid, Action)>, n: nat, u: Tid)
    requires IsRun(states, moves) && n <= |moves|
    requires PcOf(states[n], u).Joining? && Unconfirmed(PcOf(states[n], u).join)
    ensures var s, pc := states[n], PcOf(states[n], u);
      && pc.c in s.chans && s.chans[pc.c].key == pc.key
      && (s.chans[pc.c].count.frees == 0 <==> Kept(s, pc.c))
  {
    RunKeeps(states, moves, n);
    Here(states[n], u, 0, 0, 0, PcOf(states[n], u).c, 0);
    ChannelFreedIff(states, moves, n, PcOf(states[n], u).c);
  }

  // It may not be there: a subscriber that has looked a channel up does not count, so when the last
  // subscription that counts goes, the channel is freed under it.

  ghost predicate Reachable(s: State) {
    exists states: seq<State>, moves: seq<(Tid, Action)> :: IsRun(states, moves) && states[|moves|] == s
  }

  lemma Reach(s: State, t: Tid, a: Action, s': State)
    requires Reachable(s) && Next(s, t, a, s')
    ensures Reachable(s')
  {
    hide Next, Init;
    var states: seq<State>, moves: seq<(Tid, Action)> :| IsRun(states, moves) && states[|moves|] == s;
    var states', moves' := states + [s'], moves + [(t, a)];
    forall i | 0 <= i < |moves'| ensures Next(states'[i], moves'[i].0, moves'[i].1, states'[i + 1]) {
      if i < |moves| {
        assert states'[i] == states[i] && states'[i + 1] == states[i + 1] && moves'[i] == moves[i];
      }
    }
    assert IsRun(states', moves') && states'[|moves'|] == s';
  }

  lemma ByJoin(s: State, t: Tid, a: Action, s': State)
    requires Reachable(s) && PartOf(a) == InJoin && JoinStep(s, t, a, s')
    ensures Reachable(s')
  {
    hide JoinStep, Reachable;
    Reach(s, t, a, s');
  }

  lemma ByLeave(s: State, t: Tid, a: Action, s': State)
    requires Reachable(s) && PartOf(a) == InLeave && LeaveStep(s, t, a, s')
    ensures Reachable(s')
  {
    hide LeaveStep, Reachable;
    Reach(s, t, a, s');
  }

  lemma ByQuit(s: State, t: Tid, a: Action, s': State)
    requires Reachable(s) && PartOf(a) == InQuit && QuitStep(s, t, a, s')
    ensures Reachable(s')
  {
    hide QuitStep, Reachable;
    Reach(s, t, a, s');
  }

  lemma ByRelease(s: State, t: Tid, a: Action, s': State)
    requires Reachable(s) && PartOf(a) == InRelease && ReleaseStep(s, t, a, s')
    ensures Reachable(s')
  {
    hide ReleaseStep, Reachable;
    Reach(s, t, a, s');
  }

  /** An activity moves on. */
  function Goes(s: State, t: Tid, pc: Pc): State {
    s.(pcs := s.pcs[t := pc])
  }

  function WithSub(s: State, x: Sid, sub: Subscription): State {
    s.(subs := s.subs[x := sub])
  }

  function WithChan(s: State, c: Cid, ch: Channel): State {
    s.(chans := s.chans[c := ch])
  }

  function NewSub(t: Tid): Subscription {
    Subscription(Count(1, {Owner}, 0), None, None, false, false, New(t), false, Alive, 0, 0)
  }

  /** What matters of a reachable state: activities 0 and 1, subscription 0, channel 0 and its name. */
  ghost predicate Scene(s: State, pc: Pc, other: Pc, sub: Subscription, ch: Channel, table: map<Key, Cid>) {
    && Reachable(s) && PcOf(s, 0) == pc && PcOf(s, 1) == other && s.table == table
    && 0 in s.subs && s.subs[0] == sub && 0 in s.chans && s.chans[0] == ch
  }

  const NAMED: map<Key, Cid> := map[0 := 0]

  function Linked(phase: Phase, lock: Option<Tid>): Subscription {
    NewSub(0).(parent := Some(0), listed := true, phase := phase, lock := lock)
  }

  function Parts(silent: bool, lock: Option<Tid>): Subscription {
    Linked(Leaves(0), lock).(listed := false, silent := silent)
  }

  function Fresh(lock: Option<Tid>): Channel {
    Channel(Count(1, {Table}, 0), 0, lock, {})
  }

  function Used(lock: Option<Tid>): Channel {
    Channel(Count(2, {Table, Member(0)}, 0), 0, lock, {0})
  }

  function Retired(lock: Option<Tid>): Channel {
    Channel(Count(1, {Member(0)}, 0), 0, lock, {})
  }

  lemma CountsOnce()
    ensures ChanDup(Fresh(Some(0)), Member(0)).(list := Fresh(Some(0)).list + {0}) == Used(Some(0))
    ensures ChanDrop(Used(Some(0)).(list := {}), Table) == Retired(Some(0))
  {
    assert {Table} + {Member(0)} == {Table, Member(0)} && {Table, Member(0)} - {Table} == {Member(0)};
  }

  /** Activity 0 subscribes to a channel that nobody has subscribed to yet. */
  lemma FirstLooksUp() returns (s: State)
    ensures Scene(s, Joining(Looked, 0, 0, 0), Idle, NewSub(0), Fresh(None), NAMED) && 1 !in s.subs
  {
    var s0 := State(map[], map[], map[], map[], map[], map[], map[]);
    assert IsRun([s0], []) && [s0][0] == s0;
    hide Reachable;
    var s1 := WithSub(Goes(s0, 0, Joining(Start, 0, 0, 0)), 0, NewSub(0));
    ByJoin(s0, 0, Subscribe(0, 0, false), s1);
    s := WithChan(Goes(s1, 0, Joining(Looked, 0, 0, 0)), 0, Fresh(None)).(table := map[0 := 0]);
    ByJoin(s1, 0, LookUp(0), s);
  }

  lemma FirstConfirms() returns (s: State)
    ensures Scene(s, Joining(Confirmed, 0, 0, 0), Idle, NewSub(0), Fresh(Some(0)), NAMED) && 1 !in s.subs
  {
    hide Reachable;
    var s0 := FirstLooksUp();
    var s1 := WithChan(Goes(s0, 0, Joining(Checking, 0, 0, 0)), 0, Fresh(Some(0)));
    ByJoin(s0, 0, LockChannel, s1);
    s := Goes(s1, 0, Joining(Confirmed, 0, 0, 0));
    ByJoin(s1, 0, Check, s);
  }

  /** Its subscription becomes the channel's only one. */
  lemma FirstLinks() returns (s: State)
    ensures Scene(s, Joining(Joined, 0, 0, 0), Idle, Linked(Active, None), Used(Some(0)), NAMED) && 1 !in s.subs
  {
    hide Reachable;
    var s0 := FirstConfirms();
    CountsOnce();
    hide ChanDup, ChanDrop;
    s := WithChan(WithSub(Goes(s0, 0, Joining(Joined, 0, 0, 0)), 0, Linked(Active, None)), 0, Used(Some(0)));
    ByJoin(s0, 0, Link, s);
  }

  lemma FirstJoins() returns (s: State)
    ensures Scene(s, Idle, Idle, Linked(Active, None), Used(None), NAMED) && 1 !in s.subs
  {
    hide Reachable;
    var s0 := FirstLinks();
    s := WithChan(Goes(s0, 0, Idle), 0, Used(None));
    ByJoin(s0, 0, LeaveChannel, s);
  }

  lemma SecondStarts() returns (s: State)
    ensures Scene(s, Idle, Joining(Start, 1, 0, 0), Linked(Active, None), Used(None), NAMED)
  {
    hide Reachable;
    var s0 := FirstJoins();
    s := WithSub(Goes(s0, 1, Joining(Start, 1, 0, 0)), 1, NewSub(1));
    ByJoin(s0, 1, Subscribe(1, 0, false), s);
  }

  /** Activity 1 looks the channel up. */
  lemma SecondLooksUp() returns (s: State)
    ensures Scene(s, Idle, Joining(Looked, 1, 0, 0), Linked(Active, None), Used(None), NAMED)
  {
    hide Reachable;
    var s0 := SecondStarts();
    s := Goes(s0, 1, Joining(Looked, 1, 0, 0));
    ByJoin(s0, 1, LookUp(0), s);
  }

  /** Activity 0 starts to unsubscribe. */
  lemma FirstLocks() returns (s: State)
    ensures Scene(s, Leaving(SubLocked, 0, 0), Joining(Looked, 1, 0, 0), Linked(Leaves(0), Some(0)), Used(None), NAMED)
  {
    hide Reachable;
    var s0 := SecondLooksUp();
    var s1 := WithSub(Goes(s0, 0, Leaving(First, 0, 0)), 0, Linked(Leaves(0), None));
    ByLeave(s0, 0, Unsubscribe(0), s1);
    s := WithSub(Goes(s1, 0, Leaving(SubLocked, 0, 0)), 0, Linked(Leaves(0), Some(0)));
    ByLeave(s1, 0, LockSub, s);
  }

  lemma FirstUnlinks() returns (s: State)
    ensures Scene(s, Leaving(Emptied, 0, 0), Joining(Looked, 1, 0, 0), Parts(false, Some(0)), Used(Some(0)).(list := {}), NAMED)
  {
    hide Reachable;
    var s0 := FirstLocks();
    var s1 := WithChan(Goes(s0, 0, Leaving(InChannel, 0, 0)), 0, Used(Some(0)));
    ByLeave(s0, 0, EnterChannel, s1);
    assert {0} - {0} == {};
    s := WithChan(WithSub(Goes(s1, 0, Leaving(Emptied, 0, 0)), 0, Parts(false, Some(0))), 0, Used(Some(0)).(list := {}));
    ByLeave(s1, 0, Unlink, s);
  }

  /** The channel leaves the table with its last subscription. */
  lemma ChannelRetires() returns (s: State)
    ensures Scene(s, Leaving(Unlinked, 0, 0), Joining(Looked, 1, 0, 0), Parts(false, Some(0)), Retired(Some(0)), map[])
  {
    hide Reachable;
    var s0 := FirstUnlinks();
    CountsOnce();
    hide ChanDup, ChanDrop;
    assert NAMED - {0} == map[];
    s := WithChan(Goes(s0, 0, Leaving(Unlinked, 0, 0)), 0, Retired(Some(0))).(table := map[]);
    ByQuit(s0, 0, Retire, s);
  }

  lemma FirstLeavesChannel() returns (s: State)
    ensures Scene(s, Leaving(OutOfChannel, 0, 0), Joining(Looked, 1, 0, 0), Parts(false, Some(0)), Retired(None), map[])
  {
    hide Reachable;
    var s0 := ChannelRetires();
    s := WithChan(Goes(s0, 0, Leaving(OutOfChannel, 0, 0)), 0, Retired(None));
    ByQuit(s0, 0, LeaveIt, s);
  }

  lemma FirstUnlocks() returns (s: State)
    ensures Scene(s, Leaving(Unlocked, 0, 0), Joining(Looked, 1, 0, 0), Parts(true, None), Retired(None), map[])
  {
    hide Reachable;
    var s0 := FirstLeavesChannel();
    var s1 := WithSub(Goes(s0, 0, Leaving(Silenced, 0, 0)), 0, Parts(true, Some(0)));
    ByQuit(s0, 0, Silence, s1);
    s := WithSub(Goes(s1, 0, Leaving(Unlocked, 0, 0)), 0, Parts(true, None));
    ByQuit(s1, 0, UnlockIt, s);
  }

  /** The subscription is let go of, and activity 0 is about to let go of the channel. */
  lemma FirstIsDone() returns (s: State, sub: Subscription)
    ensures Scene(s, Parted(0, 0), Joining(Looked, 1, 0, 0), sub, Retired(None), map[])
  {
    hide Reachable;
    var s0 := FirstUnlocks();
    var gone := Released(Parts(true, None), 0, Owner).(phase := Gone);
    var s1 := WithSub(Goes(s0, 0, Ending(0)), 0, gone);
    ByRelease(s0, 0, LetGoLast, s1);
    sub := gone.(calls := 1, end := Parting(0));
    s := WithSub(Goes(s1, 0, Parted(0, 0)), 0, sub);
    ByRelease(s1, 0, CallUnsub, s);
  }

  /** A run in which a subscriber holds a channel that is freed. */
  lemma LookedUpChannelMayVanish() returns (s: State)
    ensures Reachable(s) && PcOf(s, 1) == Joining(Looked, 1, 0, 0) && ChanOf(s, 0).count.frees == 1
  {
    hide Reachable;
    var s0, sub := FirstIsDone();
    assert {Member(0)} - {Member(0)} == {};
    s := WithChan(WithSub(Goes(s0, 0, Idle), 0, sub.(parent := None, end := Ended)), 0, Retired(None).(count := Count(0, {}, 1)));
    ByRelease(s0, 0, DropParent, s);
  }

  /** Two callbacks of one subscription never overlap. */
  lemma CallbacksNeverOverlap(states: seq<State>, moves: seq<(Tid, Action)>, n: nat, u: Tid, v: Tid, x: Sid)
    requires IsRun(states, moves) && n <= |moves|
    requires InCallback(PcOf(states[n], u), x) && InCallback(PcOf(states[n], v), x)
    ensures u == v
  {
    RunKeeps(states, moves, n);
    Here(states[n], u, 0, 0, x, 0, 0);
    Here(states[n], v, 0, 0, x, 0, 0);
  }

  predicate InCallback(pc: Pc, x: Sid) {
    pc.Delivering? && pc.del == Running && pc.x == x
  }

  /** After `fio_unsubscribe` has let go of a subscription its `on_message` is not running and never
      starts again. */
  lemma {:induction false} NoMessageAfterUnsubscribe(states: seq<State>, moves: seq<(Tid, Action)>, n: nat, k: nat, x: Sid, u: Tid)
    requires IsRun(states, moves) && n <= k <= |moves| && x in states[n].subs && states[n].subs[x].phase == Gone
    ensures x in states[k].subs && states[k].subs[x].phase == Gone && states[k].subs[x].starts == states[n].subs[x].starts
    ensures !InCallback(PcOf(states[k], u), x)
    decreases k
  {
    hide Next, Init, Inv, MsgRefsAt, ChanRefsAt, MembersAt, TableAt, EntryAt, ChanLockAt, ChanKnown, PcKnown;
    if n < k {
      NoMessageAfterUnsubscribe(states, moves, n, k - 1, x, u);
      RunKeeps(states, moves, k - 1);
      KnownHere(states[k - 1], moves[k - 1].0, moves[k - 1].1, x, 0);
      StepKeepsGone(states[k - 1], moves[k - 1].0, moves[k - 1].1, states[k], x);
    }
    RunKeeps(states, moves, k);
    Here(states[k], u, 0, 0, x, 0, 0);
  }

  ghost predicate SameCalls(s: State, s': State, x: Sid) {
    x in s.subs ==> x in s'.subs && s'.subs[x].calls == s.subs[x].calls
  }

  lemma TasksCallNot(s: State, t: Tid, a: Action, s': State, x: Sid)
    requires PutStep(s, t, a, s') || TakeStep(s, t, a, s') || WorkStep(s, t, a, s') || LoopStep(s, t, a, s')
    ensures SameCalls(s, s', x)
  {
    hide Putting, MsgOf, ChanOf, Move, Drop, Dup;
  }

  lemma PublishCallsNot(s: State, t: Tid, a: Action, s': State, x: Sid)
    requires PublishStep(s, t, a, s') || CallStep(s, t, a, s')
    ensures SameCalls(s, s', x)
  {
    hide MsgOf, ChanOf, Drop, Dup;
  }

  lemma JoinCallsNot(s: State, t: Tid, a: Action, s': State, x: Sid)
    requires JoinStep(s, t, a, s') || LeaveStep(s, t, a, s') || QuitStep(s, t, a, s')
    ensures SameCalls(s, s', x)
  {
    hide MsgOf, ChanOf, Drop, Dup, ChanDup, ChanDrop;
  }

  lemma OnlyEndingCalls(s: State, t: Tid, a: Action, s': State, x: Sid)
    requires ReleaseStep(s, t, a, s') && x in s.subs && !SameCalls(s, s', x)
    ensures x in s'.subs && s'.subs[x].calls == s.subs[x].calls + 1 && PcOf(s, t) == Ending(x)
  {
    hide MsgOf, ChanOf, Drop, Dup, ChanDup, ChanDrop;
  }

  lemma CallsStep(s: State, t: Tid, a: Action, s': State, x: Sid)
    requires Next(s, t, a, s') && x in s.subs && !SameCalls(s, s', x)
    ensures x in s'.subs && s'.subs[x].calls == s.subs[x].calls + 1 && PcOf(s, t) == Ending(x)
  {
    hide PutStep, TakeStep, PublishStep, WorkStep, LoopStep, CallStep, ReleaseStep, JoinStep, LeaveStep, QuitStep, SameCalls, PcOf;
    match PartOf(a)
    case InPut => TasksCallNot(s, t, a, s', x);
    case InTake => TasksCallNot(s, t, a, s', x);
    case InPublish => PublishCallsNot(s, t, a, s', x);
    case InWork => TasksCallNot(s, t, a, s', x);
    case InLoop => TasksCallNot(s, t, a, s', x);
    case InCall => PublishCallsNot(s, t, a, s', x);
    case InRelease => OnlyEndingCalls(s, t, a, s', x);
    case InJoin => JoinCallsNot(s, t, a, s', x);
    case InLeave => JoinCallsNot(s, t, a, s', x);
    case InQuit => JoinCallsNot(s, t, a, s', x);
  }

  /** `on_unsubscribe` is called once at most, and when it is, the subscription is unsubscribed, no task for
      it is in the queue, and no activity delivers to it. */
  lemma UnsubscribeCallComesLast(states: seq<State>, moves: seq<(Tid, Action)>, n: nat, x: Sid, u: Tid, i: Id)
    requires IsRun(states, moves) && n < |moves| && x in states[n].subs
    requires x in states[n + 1].subs && states[n + 1].subs[x].calls > states[n].subs[x].calls
    ensures states[n].subs[x].calls == 0 && states[n + 1].subs[x].calls == 1
    ensures states[n].subs[x].phase == Gone && !HasSub(PcOf(states[n], u), x)
    ensures i in states[n].queue ==> states[n].queue[i].ToChannel? || states[n].queue[i].x != x
  {
    hide Next, Init, Inv;
    RunKeeps(states, moves, n);
    CallsStep(states[n], moves[n].0, moves[n].1, states[n + 1], x);
    EndingIsLast(states[n], moves[n].0, u, i, x);
  }

  lemma EndingIsLast(s: State, t: Tid, u: Tid, i: Id, x: Sid)
    requires Inv(s) && x in s.subs && PcOf(s, t) == Ending(x)
    ensures s.subs[x].calls == 0 && s.subs[x].phase == Gone && !HasSub(PcOf(s, u), x)
    ensures i in s.queue ==> s.queue[i].ToChannel? || s.queue[i].x != x
  {
    hide Inv, MsgRefsAt, ChanRefsAt, MembersAt, TableAt, EntryAt, ChanLockAt;
    Here(s, u, i, 0, x, 0, 0);
    Here(s, t, i, 0, x, 0, 0);
  }

  /** Once a subscription is unsubscribed and nothing is pending for it, and not before, `on_unsubscribe` has
      been called or one activity is about to call it. */
  lemma UnsubscribeCallIsNotLost(states: seq<State>, moves: seq<(Tid, Action)>, n: nat, x: Sid)
    requires IsRun(states, moves) && n <= |moves| && x in states[n].subs
    ensures LetGoOf(states[n], x) <==> states[n].subs[x].calls == 1 || exists u: Tid :: PcOf(states[n], u) == Ending(x)
  {
    SubscriptionFreedIff(states, moves, n, x);
    RunKeeps(states, moves, n);
    var s, sub := states[n], states[n].subs[x];
    hide IsRun, LetGoOf;
    Here(s, 0, 0, 0, x, 0, 0);
    if sub.end.Due? {
      Here(s, sub.end.t, 0, 0, x, 0, 0);
    }
    if u: Tid :| PcOf(s, u) == Ending(x) {
      Here(s, u, 0, 0, x, 0, 0);
    }
  }
}
