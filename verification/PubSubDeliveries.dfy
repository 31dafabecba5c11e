/** Deliveries are complete: publishing queues a message once for each channel it is for, and a channel's task
    queues it once for each subscription of the channel. */
module PubSubDeliveries {
  import opened Options
  import opened PubSub
  import opened PubSubSteps
  import opened PubSubRuns

  /** The activity goes over the subscriptions of a channel. */
  predicate Loops(pc: Pc) {
    pc.Working? && (pc.job == Looping || pc.job == LoopSub || pc.job == LoopBoth)
  }

  /** The step puts a task into the queue that delivers the message to the subscription. */
  predicate Delivers(a: Action, s': State, x: Sid, m: Mid) {
    a.Put? && a.i in s'.queue && s'.queue[a.i] == ToSub(x, m)
  }

  /** How many tasks for the subscription the activity still has to make. */
  function Owed(s: State, pc: Pc, x: Sid): nat
    requires Loops(pc)
  {
    (if x in pc.rest && !SubOf(s, x).mock then 1 else 0) + (if pc.job != Looping && pc.x == x then 1 else 0)
  }

  /** How many the activity has made in the steps from `n` to `k`. */
  function Deliveries(states: seq<State>, moves: seq<(Tid, Action)>, n: nat, k: nat, t: Tid, x: Sid, m: Mid): nat
    requires n <= k <= |moves| && |states| == |moves| + 1
    decreases k
  {
    if n == k then 0
    else Deliveries(states, moves, n, k - 1, t, x, m)
         + if moves[k - 1].0 == t && Delivers(moves[k - 1].1, states[k], x, m) then 1 else 0
  }

  /** A subscription stays what it is in this respect. */
  ghost predicate SameMock(s: State, s': State, x: Sid) {
    x in s.subs ==> x in s'.subs && s'.subs[x].mock == s.subs[x].mock
  }

  lemma PublishKeepsMock(s: State, t: Tid, a: Action, s': State, x: Sid)
    requires PublishStep(s, t, a, s')
    ensures SameMock(s, s', x)
  {
    hide MsgOf, Dup, Drop;
  }

  lemma PutTakeKeepsMock(s: State, t: Tid, a: Action, s': State, x: Sid)
    requires PutStep(s, t, a, s') || TakeStep(s, t, a, s')
    ensures SameMock(s, s', x)
  {
  }

  lemma WorkLoopKeepsMock(s: State, t: Tid, a: Action, s': State, x: Sid)
    requires WorkStep(s, t, a, s') || LoopStep(s, t, a, s')
    ensures SameMock(s, s', x)
  {
  }

  lemma CallReleaseKeepsMock(s: State, t: Tid, a: Action, s': State, x: Sid)
    requires CallStep(s, t, a, s') || ReleaseStep(s, t, a, s')
    ensures SameMock(s, s', x)
  {
  }

  lemma JoinToQuitKeepsMock(s: State, t: Tid, a: Action, s': State, x: Sid)
    requires JoinStep(s, t, a, s') || LeaveStep(s, t, a, s') || QuitStep(s, t, a, s')
    ensures SameMock(s, s', x)
  {
  }

  lemma StepKeepsMock(s: State, t: Tid, a: Action, s': State, x: Sid)
    requires Next(s, t, a, s')
    ensures SameMock(s, s', x)
  {
    match PartOf(a)
    case InPut => PutTakeKeepsMock(s, t, a, s', x);
    case InTake => PutTakeKeepsMock(s, t, a, s', x);
    case InPublish => PublishKeepsMock(s, t, a, s', x);
    case InWork => WorkLoopKeepsMock(s, t, a, s', x);
    case InLoop => WorkLoopKeepsMock(s, t, a, s', x);
    case InCall => CallReleaseKeepsMock(s, t, a, s', x);
    case InRelease => CallReleaseKeepsMock(s, t, a, s', x);
    case InJoin => JoinToQuitKeepsMock(s, t, a, s', x);
    case InLeave => JoinToQuitKeepsMock(s, t, a, s', x);
    case InQuit => JoinToQuitKeepsMock(s, t, a, s', x);
  }

  /** A step of the activity itself. */
  lemma OwnStepOwes(s: State, t: Tid, a: Action, s': State, x: Sid)
    requires Next(s, t, a, s') && Loops(PcOf(s, t)) && a != EndLoop && SameMock(s, s', x)
    requires x in PcOf(s, t).rest ==> x in s.subs
    ensures var pc, pc' := PcOf(s, t), PcOf(s', t);
      && Loops(pc') && pc'.m == pc.m && pc'.rest <= pc.rest
      && Owed(s', pc', x) + (if Delivers(a, s', x, pc.m) then 1 else 0) == Owed(s, pc, x)
  {
    match PartOf(a)
    case InPut => assert PutStep(s, t, a, s');
    case InLoop => assert LoopStep(s, t, a, s');
    case _ => assert false;
  }

  /** A subscription that the activity has still to go over exists. */
  lemma RestExists(s: State, t: Tid, x: Sid)
    requires Inv(s) && Loops(PcOf(s, t)) && x in PcOf(s, t).rest
    ensures x in s.subs
  {
    Here(s, t, 0, 0, x, PcOf(s, t).c, 0);
  }

  lemma StepOwes(s: State, u: Tid, a: Action, s': State, t: Tid, x: Sid)
    requires Inv(s) && Next(s, u, a, s') && Loops(PcOf(s, t)) && (u == t ==> a != EndLoop)
    ensures var pc, pc' := PcOf(s, t), PcOf(s', t);
      && Loops(pc') && pc'.m == pc.m
      && Owed(s', pc', x) + (if u == t && Delivers(a, s', x, pc.m) then 1 else 0) == Owed(s, pc, x)
  {
    hide Next, Inv;
    StepKeepsMock(s, u, a, s', x);
    if x in PcOf(s, t).rest {
      RestExists(s, t, x);
    }
    if u == t {
      OwnStepOwes(s, t, a, s', x);
    } else {
      StepFrame(s, u, a, s');
    }
  }

  /** What is made and what is still owed stays the same, step by step. */
  lemma {:induction false} RunOwes(states: seq<State>, moves: seq<(Tid, Action)>, n: nat, k: nat, t: Tid, x: Sid)
    requires IsRun(states, moves) && n <= k <= |moves| && Loops(PcOf(states[n], t))
    requires forall j | n <= j < k :: moves[j] != (t, EndLoop)
    ensures var pc, pc' := PcOf(states[n], t), PcOf(states[k], t);
      && Loops(pc') && pc'.m == pc.m
      && Deliveries(states, moves, n, k, t, x, pc.m) + Owed(states[k], pc', x) == Owed(states[n], pc, x)
    decreases k
  {
    if n < k {
      RunOwes(states, moves, n, k - 1, t, x);
      RunKeeps(states, moves, k - 1);
      StepOwes(states[k - 1], moves[k - 1].0, moves[k - 1].1, states[k], t, x);
    }
  }

  /** From the lock of the channel's task to the end of its loop, each subscription that was in the channel's
      list and is not the cluster's mock gets one delivery of the message, and nobody else gets one. */
  lemma DeliveredOnceEach(states: seq<State>, moves: seq<(Tid, Action)>, n: nat, k: nat, t: Tid, x: Sid)
    requires IsRun(states, moves) && n < k < |moves| && moves[n] == (t, LockTask) && moves[k] == (t, EndLoop)
    requires forall j | n < j < k :: moves[j] != (t, EndLoop)
    ensures var s, pc := states[n], PcOf(states[n], t);
      && pc.Working?
      && Deliveries(states, moves, n + 1, k, t, x, pc.m) ==
           if x in ChanOf(s, pc.c).list && !SubOf(s, x).mock then 1 else 0
  {
    hide Next, Init, Deliveries;
    assert Next(states[n], t, LockTask, states[n + 1]) && Next(states[k], t, EndLoop, states[k + 1]);
    hide IsRun;
    LocksTask(states[n], t, states[n + 1], x);
    RunOwes(states, moves, n + 1, k, t, x);
    EndsLoop(states[k], t, states[k + 1]);
  }

  lemma LocksTask(s: State, t: Tid, s': State, x: Sid)
    requires Next(s, t, LockTask, s')
    ensures var pc, pc' := PcOf(s, t), PcOf(s', t);
      && pc.Working? && Loops(pc') && pc'.job == Looping && pc'.m == pc.m && pc'.rest == ChanOf(s, pc.c).list
      && SubOf(s', x) == SubOf(s, x)
  {
    assert WorkStep(s, t, LockTask, s');
  }

  lemma EndsLoop(s: State, t: Tid, s': State)
    requires Next(s, t, EndLoop, s')
    ensures PcOf(s, t).Working? && PcOf(s, t).job == Looping && PcOf(s, t).rest == {}
  {
    assert WorkStep(s, t, EndLoop, s');
  }

  // ---------------------------------------------------------------------------------------------
  // Publishing to channels

  /** The step puts a task into the queue that delivers the message to the channel of that name. */
  predicate Reaches(a: Action, s': State, k: Key, m: Mid) {
    && a.Put? && a.i in s'.queue && s'.queue[a.i].ToChannel? && s'.queue[a.i].m == m
    && s'.queue[a.i].c in s'.chans && s'.chans[s'.queue[a.i].c].key == k
  }

  /** What a publishing activity has still to do for the name. */
  function Unsent(s: State, pc: Pc, k: Key): nat
    requires pc.Publishing?
  {
    (if k in pc.left then 1 else 0) + (if pc.pub != Sending && ChanOf(s, pc.c).key == k then 1 else 0)
  }

  /** The names for which the activity made a task, or found no channel, in the steps from `n` to `j`. */
  function Queued(states: seq<State>, moves: seq<(Tid, Action)>, n: nat, j: nat, t: Tid, k: Key, m: Mid): nat
    requires n <= j <= |moves| && |states| == |moves| + 1
    decreases j
  {
    if n == j then 0
    else Queued(states, moves, n, j - 1, t, k, m) + if moves[j - 1].0 == t && Reaches(moves[j - 1].1, states[j], k, m) then 1 else 0
  }

  function Missed(moves: seq<(Tid, Action)>, n: nat, j: nat, t: Tid, k: Key): nat
    requires n <= j <= |moves|
    decreases j
  {
    if n == j then 0 else Missed(moves, n, j - 1, t, k) + if moves[j - 1] == (t, Miss(k)) then 1 else 0
  }

  lemma OwnPutSends(s: State, t: Tid, a: Action, s': State, k: Key)
    requires PutStep(s, t, a, s') && PcOf(s, t).Publishing? && PcOf(s, t).c in s.chans
    ensures var pc, pc' := PcOf(s, t), PcOf(s', t);
      && pc'.Publishing? && pc'.m == pc.m
      && Unsent(s', pc', k) + (if Reaches(a, s', k, pc.m) then 1 else 0) == Unsent(s, pc, k)
  {
  }

  lemma OwnStepSends(s: State, t: Tid, a: Action, s': State, k: Key)
    requires PublishStep(s, t, a, s') && PcOf(s, t).Publishing? && !a.Finish? && (a.Find? ==> EntryAt(s, a.key))
    ensures var pc, pc' := PcOf(s, t), PcOf(s', t);
      && pc'.Publishing? && pc'.m == pc.m
      && Unsent(s', pc', k) + (if a == Miss(k) then 1 else 0) == Unsent(s, pc, k)
  {
    hide MsgOf, Dup, Drop;
  }

  lemma OtherStepSends(s: State, u: Tid, a: Action, s': State, t: Tid, k: Key)
    requires Inv(s) && Next(s, u, a, s') && PcOf(s, t).Publishing? && u != t
    ensures PcOf(s', t) == PcOf(s, t) && Unsent(s', PcOf(s', t), k) == Unsent(s, PcOf(s, t), k)
  {
    var c := PcOf(s, t).c;
    StepFrame(s, u, a, s');
    KnownHere(s, u, a, 0, c);
    StepChanFrame(s, u, a, s', c);
    Here(s, t, 0, 0, 0, c, 0);
    hide Next, Inv;
  }

  lemma StepSends(s: State, u: Tid, a: Action, s': State, t: Tid, k: Key)
    requires Inv(s) && Next(s, u, a, s') && PcOf(s, t).Publishing? && (u == t ==> !a.Finish?)
    ensures var pc, pc' := PcOf(s, t), PcOf(s', t);
      && pc'.Publishing? && pc'.m == pc.m
      && Unsent(s', pc', k) + (if u == t && Reaches(a, s', k, pc.m) then 1 else 0) + (if u == t && a == Miss(k) then 1 else 0)
         == Unsent(s, pc, k)
  {
    if u != t {
      OtherStepSends(s, u, a, s', t, k);
    } else if a.Put? {
      Here(s, t, 0, 0, 0, PcOf(s, t).c, 0);
      hide Inv;
      assert PutStep(s, t, a, s');
      OwnPutSends(s, t, a, s', k);
    } else {
      Here(s, t, 0, 0, 0, 0, if a.Find? then a.key else 0);
      hide Inv;
      OnlyPublishes(s, t, a, s');
      OwnStepSends(s, t, a, s', k);
    }
  }

  lemma OnlyPublishes(s: State, t: Tid, a: Action, s': State)
    requires Next(s, t, a, s') && PcOf(s, t).Publishing? && !a.Put?
    ensures PublishStep(s, t, a, s')
  {
  }

  lemma {:induction false} RunSends(states: seq<State>, moves: seq<(Tid, Action)>, n: nat, j: nat, t: Tid, k: Key)
    requires IsRun(states, moves) && n <= j <= |moves| && PcOf(states[n], t).Publishing?
    requires forall i | n <= i < j :: moves[i] != (t, Finish)
    ensures var pc, pc' := PcOf(states[n], t), PcOf(states[j], t);
      && pc'.Publishing? && pc'.m == pc.m
      && Queued(states, moves, n, j, t, k, pc.m) + Missed(moves, n, j, t, k) + Unsent(states[j], pc', k) == Unsent(states[n], pc, k)
    decreases j
  {
    hide Next, Init, Reaches, Unsent;
    if n < j {
      RunSends(states, moves, n, j - 1, t, k);
      RunKeeps(states, moves, j - 1);
      StepSends(states[j - 1], moves[j - 1].0, moves[j - 1].1, states[j], t, k);
    }
  }

  /** From its creation to the end of the publishing a message is queued once for each name it is for that has
      a channel when it is looked up, and for no other name. */
  lemma PublishedOnceEach(states: seq<State>, moves: seq<(Tid, Action)>, n: nat, j: nat, t: Tid, m: Mid, keys: set<Key>, k: Key)
    requires IsRun(states, moves) && n < j < |moves| && moves[n] == (t, Create(m, keys)) && moves[j] == (t, Finish)
    requires forall i | n < i < j :: moves[i] != (t, Finish)
    ensures Queued(states, moves, n + 1, j, t, k, m) + Missed(moves, n + 1, j, t, k) == if k in keys then 1 else 0
    ensures forall i | n < i < j && moves[i] == (t, Miss(k)) :: k !in states[i].table
  {
    hide Next, Init, Queued, Missed;
    Creates(states[n], t, m, keys, states[n + 1]);
    RunSends(states, moves, n + 1, j, t, k);
    EndsPublishing(states[j], t, states[j + 1]);
    forall i | n < i < j && moves[i] == (t, Miss(k)) ensures k !in states[i].table {
      MissesNone(states[i], t, k, states[i + 1]);
    }
  }

  lemma Creates(s: State, t: Tid, m: Mid, keys: set<Key>, s': State)
    requires Next(s, t, Create(m, keys), s')
    ensures PcOf(s', t) == Publishing(Sending, m, 0, keys)
  {
    assert PublishStep(s, t, Create(m, keys), s');
  }

  lemma EndsPublishing(s: State, t: Tid, s': State)
    requires Next(s, t, Finish, s')
    ensures PcOf(s, t).Publishing? && PcOf(s, t).pub == Sending && PcOf(s, t).left == {}
  {
    assert PublishStep(s, t, Finish, s');
  }

  lemma MissesNone(s: State, t: Tid, k: Key, s': State)
    requires Next(s, t, Miss(k), s')
    ensures k !in s.table
  {
    assert PublishStep(s, t, Miss(k), s');
  }

  // ---------------------------------------------------------------------------------------------
  // Subscribing

  /** The activity subscribes `x` under the name `k`; once it has linked it, the subscription is in the list of the
      channel that the table has for the name. */
  ghost predicate Subscribes(s: State, t: Tid, x: Sid, k: Key) {
    var pc := PcOf(s, t);
    && pc.Joining? && pc.x == x && pc.key == k
    && (pc.join == Joined ==> IsMember(s, x, k) && s.table[k] == pc.c)
  }

  predicate IsMember(s: State, x: Sid, k: Key) {
    k in s.table && s.table[k] in s.chans && s.chans[s.table[k]].key == k && x in s.chans[s.table[k]].list
  }

  lemma OwnStepSubscribes(s: State, t: Tid, a: Action, s': State, x: Sid, k: Key)
    requires PcOf(s, t).Joining? && Subscribes(s, t, x, k) && a != LeaveChannel
    requires JoinStep(s, t, a, s') && PcAt(s, t) && TableAt(s, PcOf(s, t).c)
    ensures Subscribes(s', t, x, k)
  {
  }

  lemma OtherStepSubscribes(s: State, u: Tid, a: Action, s': State, t: Tid, x: Sid, k: Key)
    requires Inv(s) && Next(s, u, a, s') && u != t && Subscribes(s, t, x, k)
    ensures Subscribes(s', t, x, k)
  {
    StepFrame(s, u, a, s');
    if PcOf(s, t).join == Joined {
      var c := PcOf(s, t).c;
      KnownHere(s, u, a, 0, c);
      StepChanFrame(s, u, a, s', c);
      StepKeepsChan(s, u, a, s', t, 0, c);
      Here(s, t, 0, 0, 0, c, k);
    }
    hide Next, Inv;
  }

  lemma OnlyJoins(s: State, t: Tid, a: Action, s': State)
    requires Next(s, t, a, s') && PcOf(s, t).Joining?
    ensures JoinStep(s, t, a, s')
  {
  }

  lemma {:induction false} SubscribesAlong(states: seq<State>, moves: seq<(Tid, Action)>, n: nat, j: nat, t: Tid, x: Sid, k: Key)
    requires IsRun(states, moves) && n <= j <= |moves| && Subscribes(states[n], t, x, k)
    requires forall i | n <= i < j :: moves[i] != (t, LeaveChannel)
    ensures Subscribes(states[j], t, x, k)
    decreases j
  {
    hide Next, Init, Subscribes;
    if n < j {
      SubscribesAlong(states, moves, n, j - 1, t, x, k);
      RunKeeps(states, moves, j - 1);
      var s, u, a := states[j - 1], moves[j - 1].0, moves[j - 1].1;
      if u == t {
        StillJoining(s, t, x, k);
        OnlyJoins(s, t, a, states[j]);
        Here(s, t, 0, 0, 0, PcOf(s, t).c, 0);
        OwnStepSubscribes(s, t, a, states[j], x, k);
      } else {
        OtherStepSubscribes(s, u, a, states[j], t, x, k);
      }
    }
  }

  lemma StillJoining(s: State, t: Tid, x: Sid, k: Key)
    requires Subscribes(s, t, x, k)
    ensures PcOf(s, t).Joining?
  {
  }

  /** When `fio_subscribe` returns, the subscription is in the list of the channel that the table has for its name. */
  lemma SubscribedIsMember(states: seq<State>, moves: seq<(Tid, Action)>, n: nat, j: nat, t: Tid, x: Sid, k: Key, mock: bool)
    requires IsRun(states, moves) && n < j < |moves| && moves[n] == (t, Subscribe(x, k, mock)) && moves[j] == (t, LeaveChannel)
    requires forall i | n < i < j :: moves[i] != (t, LeaveChannel)
    ensures IsMember(states[j + 1], x, k) && PcOf(states[j + 1], t) == Idle
  {
    assert JoinStep(states[n], t, Subscribe(x, k, mock), states[n + 1]);
    SubscribesAlong(states, moves, n + 1, j, t, x, k);
    assert JoinStep(states[j], t, LeaveChannel, states[j + 1]);
  }
}
