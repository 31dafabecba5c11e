/** What a delivery does: it calls `on_message` once, unless the subscription is silent, and then it is done or,
    if the callback asked for that, queued again; and no delivery is lost. */
module PubSubCalls {
  import opened Options
  import opened PubSub
  import opened PubSubSteps
  import opened PubSubRuns

  // ---------------------------------------------------------------------------------------------
  // How an activity goes through a delivery

  /** The callback is over and the lock of the subscription released, or it is between the two locks. */
  predicate Inside(pc: Pc) {
    pc.Delivering? && (pc.del == Locked || pc.del == Running || pc.del == Ran)
  }

  predicate Decided(pc: Pc) {
    pc.Delivering? && (pc.del == Again || pc.del == Finishing)
  }

  /** The step from one place of a delivery to the next. */
  predicate Advances(pc: Pc, a: Action, pc': Pc, silent: bool) {
    && pc.Delivering? && pc'.Delivering? && pc'.x == pc.x && pc'.m == pc.m
    && match pc'.del
       case Locked => pc.del == Taken && a == LockDelivery
       case Running => pc.del == Locked && a == Look && !silent
       case Ran => (pc.del == Locked && a == Look && silent && !pc'.again) || (pc.del == Running && a == Return(pc'.again))
       case Again => pc.del == Ran && a == UnlockSub && pc.again
       case Finishing => pc.del == Ran && a == UnlockSub && !pc.again
       case LettingGo => pc.del == Finishing && a == DropMsg
       case Taken => false
  }

  lemma PutTakeGoElsewhere(s: State, t: Tid, a: Action, s': State)
    requires PutStep(s, t, a, s') || TakeStep(s, t, a, s')
    ensures !Inside(PcOf(s', t)) && !Decided(PcOf(s', t))
  {
  }

  lemma WorkLoopGoElsewhere(s: State, t: Tid, a: Action, s': State)
    requires WorkStep(s, t, a, s') || LoopStep(s, t, a, s')
    ensures !Inside(PcOf(s', t)) && !Decided(PcOf(s', t))
  {
  }

  lemma PublishGoesElsewhere(s: State, t: Tid, a: Action, s': State)
    requires PublishStep(s, t, a, s')
    ensures !Inside(PcOf(s', t)) && !Decided(PcOf(s', t))
  {
    hide MsgOf, Dup, Drop;
  }

  lemma ReleaseToQuitGoElsewhere(s: State, t: Tid, a: Action, s': State)
    requires ReleaseStep(s, t, a, s') || JoinStep(s, t, a, s') || LeaveStep(s, t, a, s') || QuitStep(s, t, a, s')
    ensures !Inside(PcOf(s', t)) && !Decided(PcOf(s', t))
  {
  }

  lemma DeliveryAdvances(s: State, t: Tid, a: Action, s': State)
    requires Next(s, t, a, s') && (Inside(PcOf(s', t)) || Decided(PcOf(s', t)))
    ensures Advances(PcOf(s, t), a, PcOf(s', t), SubOf(s, PcOf(s', t).x).silent)
  {
    var part := PartOf(a);
    if part == InCall {
      assert CallStep(s, t, a, s');
    } else if part == InPublish {
      PublishGoesElsewhere(s, t, a, s');
    } else if part == InRelease || part == InJoin || part == InLeave || part == InQuit {
      ReleaseToQuitGoElsewhere(s, t, a, s');
    } else if part == InWork || part == InLoop {
      WorkLoopGoElsewhere(s, t, a, s');
    } else {
      PutTakeGoElsewhere(s, t, a, s');
    }
  }

  // ---------------------------------------------------------------------------------------------
  // The callback's count

  /** The step calls the subscription's `on_message`. */
  predicate CallsNow(s: State, t: Tid, s': State, x: Sid) {
    InCallback(PcOf(s', t), x) && !InCallback(PcOf(s, t), x)
  }

  /** The subscription's `on_message` is about to be cleared. */
  predicate AtSilence(pc: Pc, x: Sid) {
    pc.Leaving? && pc.leave == OutOfChannel && pc.x == x
  }

  /** Only the call of `on_message` counts, and only `fio_unsubscribe` clears it. */
  ghost predicate StartsFrame(s: State, t: Tid, s': State, x: Sid) {
    x in s.subs ==>
      && x in s'.subs && s'.subs[x].starts == s.subs[x].starts + (if CallsNow(s, t, s', x) then 1 else 0)
      && (s'.subs[x].silent == s.subs[x].silent || AtSilence(PcOf(s, t), x))
  }

  lemma PutTakeStarts(s: State, t: Tid, a: Action, s': State, x: Sid)
    requires PutStep(s, t, a, s') || TakeStep(s, t, a, s')
    ensures StartsFrame(s, t, s', x)
  {
  }

  lemma PublishStarts(s: State, t: Tid, a: Action, s': State, x: Sid)
    requires PublishStep(s, t, a, s')
    ensures StartsFrame(s, t, s', x)
  {
    hide MsgOf, Dup, Drop;
  }

  lemma WorkLoopStarts(s: State, t: Tid, a: Action, s': State, x: Sid)
    requires WorkStep(s, t, a, s') || LoopStep(s, t, a, s')
    ensures StartsFrame(s, t, s', x)
  {
  }

  lemma CallStarts(s: State, t: Tid, a: Action, s': State, x: Sid)
    requires CallStep(s, t, a, s')
    ensures StartsFrame(s, t, s', x)
  {
  }

  lemma ReleaseStarts(s: State, t: Tid, a: Action, s': State, x: Sid)
    requires ReleaseStep(s, t, a, s')
    ensures StartsFrame(s, t, s', x)
  {
  }

  lemma JoinStarts(s: State, t: Tid, a: Action, s': State, x: Sid)
    requires JoinStep(s, t, a, s')
    ensures StartsFrame(s, t, s', x)
  {
  }

  lemma LeaveQuitStarts(s: State, t: Tid, a: Action, s': State, x: Sid)
    requires LeaveStep(s, t, a, s') || QuitStep(s, t, a, s')
    ensures StartsFrame(s, t, s', x)
  {
  }

  lemma StepStarts(s: State, t: Tid, a: Action, s': State, x: Sid)
    requires Next(s, t, a, s')
    ensures StartsFrame(s, t, s', x)
  {
    match PartOf(a)
    case InPut => PutTakeStarts(s, t, a, s', x);
    case InTake => PutTakeStarts(s, t, a, s', x);
    case InPublish => PublishStarts(s, t, a, s', x);
    case InWork => WorkLoopStarts(s, t, a, s', x);
    case InLoop => WorkLoopStarts(s, t, a, s', x);
    case InCall => CallStarts(s, t, a, s', x);
    case InRelease => ReleaseStarts(s, t, a, s', x);
    case InJoin => JoinStarts(s, t, a, s', x);
    case InLeave => LeaveQuitStarts(s, t, a, s', x);
    case InQuit => LeaveQuitStarts(s, t, a, s', x);
  }

  /** How often a step so far was a call of the subscription's `on_message`. */
  function Calls(states: seq<State>, moves: seq<(Tid, Action)>, n: nat, k: nat, x: Sid): nat
    requires n <= k <= |moves| && |states| == |moves| + 1
    decreases k
  {
    if n == k then 0
    else Calls(states, moves, n, k - 1, x) + if CallsNow(states[k - 1], moves[k - 1].0, states[k], x) then 1 else 0
  }

  /** `starts` counts the calls. */
  lemma {:induction false} StartsAreCalls(states: seq<State>, moves: seq<(Tid, Action)>, n: nat, k: nat, x: Sid)
    requires IsRun(states, moves) && n <= k <= |moves| && x in states[n].subs
    ensures x in states[k].subs && states[k].subs[x].starts == states[n].subs[x].starts + Calls(states, moves, n, k, x)
    decreases k
  {
    hide Next, Init, CallsNow;
    if n < k {
      StartsAreCalls(states, moves, n, k - 1, x);
      StepStarts(states[k - 1], moves[k - 1].0, moves[k - 1].1, states[k], x);
    }
  }

  // ---------------------------------------------------------------------------------------------
  // Between the locks

  /** While a delivery has the subscription's lock, no other activity silences it or calls its `on_message`. */
  lemma OthersLeaveLocked(s: State, u: Tid, a: Action, s': State, t: Tid, x: Sid)
    requires Inv(s) && Next(s, u, a, s') && u != t && Inside(PcOf(s, t)) && PcOf(s, t).x == x
    ensures PcOf(s', t) == PcOf(s, t) && x in s.subs && x in s'.subs
    ensures s'.subs[x].silent == s.subs[x].silent && s'.subs[x].starts == s.subs[x].starts
  {
    Here(s, t, 0, 0, x, 0, 0);
    Here(s, u, 0, 0, x, 0, 0);
    hide Inv;
    StepFrame(s, u, a, s');
    StepStarts(s, u, a, s', x);
    if CallsNow(s, u, s', x) {
      DeliveryAdvances(s, u, a, s');
    }
    hide Next;
    assert !LocksSub(PcOf(s, u), x);
  }

  /** The delivery of `x` has the lock; how often it has called `on_message`, and what it does next. */
  ghost predicate Under(s: State, t: Tid, x: Sid, m: Mid, silent: bool, starts: nat) {
    var pc := PcOf(s, t);
    && Inside(pc) && pc.x == x && pc.m == m && x in s.subs && s.subs[x].silent == silent
    && s.subs[x].starts == starts + (if pc.del == Locked || silent then 0 else 1)
    && (silent ==> pc.del != Running && (pc.del == Ran ==> !pc.again))
  }

  lemma StaysUnder(s: State, u: Tid, a: Action, s': State, t: Tid, x: Sid, m: Mid, silent: bool, starts: nat)
    requires Inv(s) && Next(s, u, a, s') && Under(s, t, x, m, silent, starts) && !(u == t && a == UnlockSub)
    ensures Under(s', t, x, m, silent, starts)
  {
    if u == t {
      assert CallStep(s, t, a, s');
    } else {
      OthersLeaveLocked(s, u, a, s', t, x);
    }
  }

  lemma TakesLock(states: seq<State>, moves: seq<(Tid, Action)>, n: nat, t: Tid)
    requires IsRun(states, moves) && n < |moves| && moves[n] == (t, LockDelivery)
    ensures var pc, s := PcOf(states[n], t), states[n]; pc.Delivering? && pc.del == Taken && pc.x in s.subs
    ensures var pc, s := PcOf(states[n], t), states[n];
      Under(states[n + 1], t, pc.x, pc.m, s.subs[pc.x].silent, s.subs[pc.x].starts)
  {
    RunKeeps(states, moves, n);
    assert CallStep(states[n], t, LockDelivery, states[n + 1]);
    Here(states[n], t, 0, 0, PcOf(states[n], t).x, 0, 0);
  }

  lemma {:induction false} UnderAlong(states: seq<State>, moves: seq<(Tid, Action)>, n: nat, k: nat, t: Tid)
    requires IsRun(states, moves) && n < k <= |moves| && moves[n] == (t, LockDelivery)
    requires forall j | n < j < k :: moves[j] != (t, UnlockSub)
    ensures var pc, s := PcOf(states[n], t), states[n];
      && pc.Delivering? && pc.x in s.subs
      && Under(states[k], t, pc.x, pc.m, s.subs[pc.x].silent, s.subs[pc.x].starts)
    decreases k
  {
    hide Next, Under, Init;
    TakesLock(states, moves, n, t);
    if n + 1 < k {
      UnderAlong(states, moves, n, k - 1, t);
      RunKeeps(states, moves, k - 1);
      var pc, s := PcOf(states[n], t), states[n];
      StaysUnder(states[k - 1], moves[k - 1].0, moves[k - 1].1, states[k], t, pc.x, pc.m, s.subs[pc.x].silent, s.subs[pc.x].starts);
    }
  }

  /** From the lock of a subscription by a delivery to its release, `on_message` is called once if the
      subscription was not silent, and not at all if it was. */
  lemma CalledOnce(states: seq<State>, moves: seq<(Tid, Action)>, n: nat, k: nat, t: Tid)
    requires IsRun(states, moves) && n < k < |moves| && moves[n] == (t, LockDelivery) && moves[k] == (t, UnlockSub)
    requires forall j | n < j < k :: moves[j] != (t, UnlockSub)
    ensures PcOf(states[n], t).Delivering? && PcOf(states[n], t).x in states[n].subs
    ensures var x := PcOf(states[n], t).x;
      && x in states[k].subs && states[k].subs[x].silent == states[n].subs[x].silent
      && states[k].subs[x].starts == states[n].subs[x].starts + (if states[n].subs[x].silent then 0 else 1)
      && Calls(states, moves, n, k, x) == (if states[n].subs[x].silent then 0 else 1)
      && PcOf(states[k], t).Delivering? && (states[n].subs[x].silent ==> !PcOf(states[k], t).again)
  {
    UnderAlong(states, moves, n, k, t);
    StartsAreCalls(states, moves, n, k, PcOf(states[n], t).x);
    assert CallStep(states[k], t, UnlockSub, states[k + 1]);
  }

  /** The next step of the activity after it has released the lock: what the callback asked for. */
  lemma AgainQueues(states: seq<State>, moves: seq<(Tid, Action)>, k: nat, j: nat, t: Tid)
    requires IsRun(states, moves) && k < j < |moves| && moves[k] == (t, UnlockSub) && moves[j].0 == t
    requires forall i | k < i < j :: moves[i].0 != t
    ensures PcOf(states[k], t).Delivering?
    ensures var pc, a := PcOf(states[k], t), moves[j].1;
      if pc.again then a.Put? && a.i in states[j + 1].queue && states[j + 1].queue[a.i] == ToSub(pc.x, pc.m) else a == DropMsg
  {
    assert CallStep(states[k], t, UnlockSub, states[k + 1]);
    var pc := PcOf(states[k + 1], t);
    Rests(states, moves, k + 1, j, t);
    DecidedGoesOn(states[j], t, moves[j].1, states[j + 1]);
  }

  lemma {:induction false} Rests(states: seq<State>, moves: seq<(Tid, Action)>, k: nat, j: nat, t: Tid)
    requires IsRun(states, moves) && k <= j <= |moves| && forall i | k <= i < j :: moves[i].0 != t
    ensures PcOf(states[j], t) == PcOf(states[k], t)
    decreases j
  {
    hide Next, Init;
    if k < j {
      Rests(states, moves, k, j - 1, t);
      StepFrame(states[j - 1], moves[j - 1].0, moves[j - 1].1, states[j]);
    }
  }

  lemma DecidedGoesOn(s: State, t: Tid, a: Action, s': State)
    requires Next(s, t, a, s') && Decided(PcOf(s, t))
    ensures var pc := PcOf(s, t);
      if pc.del == Again then a.Put? && a.i in s'.queue && s'.queue[a.i] == ToSub(pc.x, pc.m) else a == DropMsg
  {
    if PartOf(a) == InPut { assert PutStep(s, t, a, s'); } else { assert PartOf(a) == InCall; }
  }

  /** What the callback answers is what the delivery goes by. */
  lemma AnswerIsKept(states: seq<State>, moves: seq<(Tid, Action)>, r: nat, k: nat, t: Tid, again: bool)
    requires IsRun(states, moves) && r < k < |moves| && moves[r] == (t, Return(again))
    requires forall i | r < i < k :: moves[i].0 != t
    ensures PcOf(states[k], t).Delivering? && PcOf(states[k], t).again == again
  {
    assert CallStep(states[r], t, Return(again), states[r + 1]);
    Rests(states, moves, r + 1, k, t);
  }

  // ---------------------------------------------------------------------------------------------
  // Every delivery that is done has called

  lemma OthersStay(s: State, u: Tid, a: Action, s': State, t: Tid)
    requires Next(s, u, a, s') && u != t
    ensures PcOf(s', t) == PcOf(s, t)
  {
    hide Next;
    StepFrame(s, u, a, s');
  }

  /** Where an activity was before it was at such a place. */
  lemma BeforeInside(s: State, u: Tid, a: Action, s': State, t: Tid)
    requires Next(s, u, a, s') && Inside(PcOf(s', t))
    ensures PcOf(s, t).Delivering? && PcOf(s, t).x == PcOf(s', t).x && PcOf(s, t).m == PcOf(s', t).m
    ensures !(u == t && a == UnlockSub) && (Inside(PcOf(s, t)) || (u == t && a == LockDelivery))
  {
    hide Next;
    if u == t {
      DeliveryAdvances(s, t, a, s');
    } else {
      OthersStay(s, u, a, s', t);
    }
  }

  lemma BeforeDecided(s: State, u: Tid, a: Action, s': State, t: Tid)
    requires Next(s, u, a, s') && Decided(PcOf(s', t))
    ensures PcOf(s, t).Delivering? && PcOf(s, t).x == PcOf(s', t).x && PcOf(s, t).m == PcOf(s', t).m
    ensures if u == t then a == UnlockSub && Inside(PcOf(s, t)) && (PcOf(s, t).again <==> PcOf(s', t).del == Again)
            else PcOf(s, t) == PcOf(s', t)
  {
    hide Next;
    if u == t {
      DeliveryAdvances(s, t, a, s');
    } else {
      OthersStay(s, u, a, s', t);
    }
  }

  lemma IdleAtFirst(s: State, t: Tid)
    requires Init(s)
    ensures PcOf(s, t) == Idle
  {
  }

  /** When a delivery took the lock that it has. */
  lemma {:induction false} LockedAt(states: seq<State>, moves: seq<(Tid, Action)>, k: nat, t: Tid) returns (n: nat)
    requires IsRun(states, moves) && k <= |moves| && Inside(PcOf(states[k], t))
    ensures n < k && moves[n] == (t, LockDelivery) && forall j | n < j < k :: moves[j] != (t, UnlockSub)
    ensures var pc, pc' := PcOf(states[n], t), PcOf(states[k], t);
      pc.Delivering? && pc.x == pc'.x && pc.m == pc'.m
    decreases k
  {
    hide Next, Init;
    IdleAtFirst(states[0], t);
    assert k > 0;
    var s, u, a := states[k - 1], moves[k - 1].0, moves[k - 1].1;
    BeforeInside(s, u, a, states[k], t);
    if u == t && a == LockDelivery {
      n := k - 1;
    } else {
      n := LockedAt(states, moves, k - 1, t);
    }
  }

  /** When it released it. */
  lemma {:induction false} UnlockedAt(states: seq<State>, moves: seq<(Tid, Action)>, k: nat, t: Tid) returns (n: nat)
    requires IsRun(states, moves) && k <= |moves| && Decided(PcOf(states[k], t))
    ensures n < k && moves[n] == (t, UnlockSub) && Inside(PcOf(states[n], t))
    ensures var pc, pc' := PcOf(states[n], t), PcOf(states[k], t);
      pc'.Delivering? && pc.x == pc'.x && pc.m == pc'.m && (pc.again <==> pc'.del == Again)
    decreases k
  {
    hide Next, Init;
    IdleAtFirst(states[0], t);
    assert k > 0;
    var s, u, a := states[k - 1], moves[k - 1].0, moves[k - 1].1;
    BeforeDecided(s, u, a, states[k], t);
    if u == t {
      n := k - 1;
    } else {
      n := UnlockedAt(states, moves, k - 1, t);
    }
  }

  /** A delivery that is done, and one that is queued again because its callback asked for it, has called
      `on_message` once in between its lock and its release, unless the subscription was silent. */
  lemma DoneWasCalled(states: seq<State>, moves: seq<(Tid, Action)>, k: nat, t: Tid) returns (n: nat, q: nat)
    requires IsRun(states, moves) && k <= |moves| && Decided(PcOf(states[k], t))
    ensures n < q < k && moves[n] == (t, LockDelivery) && moves[q] == (t, UnlockSub)
    ensures var pc, pc' := PcOf(states[n], t), PcOf(states[k], t);
      && pc.Delivering? && pc.x == pc'.x && pc.m == pc'.m && pc.x in states[n].subs && pc.x in states[q].subs
      && states[q].subs[pc.x].starts == states[n].subs[pc.x].starts + (if states[n].subs[pc.x].silent then 0 else 1)
      && (states[n].subs[pc.x].silent ==> pc'.del == Finishing)
  {
    hide Next, Init, Calls;
    q := UnlockedAt(states, moves, k, t);
    n := LockedAt(states, moves, q, t);
    CalledOnce(states, moves, n, q, t);
  }
}
