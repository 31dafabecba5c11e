/** No task is lost and none is made up: what was queued is still pending or has been done. */
module PubSubBalance {
  import opened Options
  import opened PubSub
  import opened PubSubSteps
  import opened PubSubRuns

  /** The activity has the task in hand: it has not yet gone over the channel's subscriptions, or not yet let
      go of the message. */
  predicate Handles(pc: Pc, item: Item) {
    match item
    case ToChannel(c, m) =>
      pc.Working? && pc.c == c && pc.m == m && pc.job != LoopDone && pc.job != JobDone
    case ToSub(x, m) => pc.Delivering? && pc.x == x && pc.m == m && pc.del != LettingGo
  }

  function Waiting(s: State, item: Item): set<Id> {
    set i | i in s.queue && s.queue[i] == item
  }

  function Handlers(s: State, item: Item): set<Tid> {
    set t | t in s.pcs && Handles(s.pcs[t], item)
  }

  /** How many such tasks are in the queue or in the hands of activities. */
  function Pending(s: State, item: Item): nat {
    |Waiting(s, item)| + |Handlers(s, item)|
  }

  /** The step queues a task that the activity did not have in hand. */
  predicate Makes(s: State, t: Tid, a: Action, s': State, item: Item) {
    a.Put? && ItemOf(s', a.i) == Some(item) && !Handles(PcOf(s, t), item)
  }

  /** The step is the end of a task: of the loop over the subscriptions, or of the delivery. */
  predicate Finishes(s: State, t: Tid, a: Action, item: Item) {
    var pc := PcOf(s, t);
    match item
    case ToChannel(c, m) => a == EndLoop && pc.Working? && pc.c == c && pc.m == m
    case ToSub(x, m) => a == DropMsg && pc.Delivering? && pc.x == x && pc.m == m
  }

  function One(b: bool): nat {
    if b then 1 else 0
  }

  /** The change at the one place in the queue and the one activity that a step touches. */
  ghost predicate Balanced(s: State, t: Tid, a: Action, s': State, item: Item) {
    One(ItemOf(s', IdOf(a)) == Some(item)) + One(Handles(PcOf(s', t), item)) + One(Finishes(s, t, a, item))
    == One(ItemOf(s, IdOf(a)) == Some(item)) + One(Handles(PcOf(s, t), item)) + One(Makes(s, t, a, s', item))
  }

  lemma PutTakeBalanced(s: State, t: Tid, a: Action, s': State, item: Item)
    requires PutStep(s, t, a, s') || TakeStep(s, t, a, s')
    ensures Balanced(s, t, a, s', item)
  {
  }

  lemma PublishBalanced(s: State, t: Tid, a: Action, s': State, item: Item)
    requires PublishStep(s, t, a, s')
    ensures Balanced(s, t, a, s', item)
  {
    hide MsgOf, Dup, Drop;
  }

  lemma WorkLoopBalanced(s: State, t: Tid, a: Action, s': State, item: Item)
    requires WorkStep(s, t, a, s') || LoopStep(s, t, a, s')
    ensures Balanced(s, t, a, s', item)
  {
  }

  lemma CallBalanced(s: State, t: Tid, a: Action, s': State, item: Item)
    requires CallStep(s, t, a, s')
    ensures Balanced(s, t, a, s', item)
  {
  }

  lemma ReleaseJoinBalanced(s: State, t: Tid, a: Action, s': State, item: Item)
    requires ReleaseStep(s, t, a, s') || JoinStep(s, t, a, s')
    ensures Balanced(s, t, a, s', item)
  {
  }

  lemma LeaveQuitBalanced(s: State, t: Tid, a: Action, s': State, item: Item)
    requires LeaveStep(s, t, a, s') || QuitStep(s, t, a, s')
    ensures Balanced(s, t, a, s', item)
  {
  }

  lemma StepBalanced(s: State, t: Tid, a: Action, s': State, item: Item)
    requires Next(s, t, a, s')
    ensures Balanced(s, t, a, s', item)
  {
    match PartOf(a)
    case InPut => PutTakeBalanced(s, t, a, s', item);
    case InTake => PutTakeBalanced(s, t, a, s', item);
    case InPublish => PublishBalanced(s, t, a, s', item);
    case InWork => WorkLoopBalanced(s, t, a, s', item);
    case InLoop => WorkLoopBalanced(s, t, a, s', item);
    case InCall => CallBalanced(s, t, a, s', item);
    case InRelease => ReleaseJoinBalanced(s, t, a, s', item);
    case InJoin => ReleaseJoinBalanced(s, t, a, s', item);
    case InLeave => LeaveQuitBalanced(s, t, a, s', item);
    case InQuit => LeaveQuitBalanced(s, t, a, s', item);
  }

  /** Two sets that differ in one element at most. */
  lemma OneElement(before: set<nat>, after: set<nat>, x: nat)
    requires forall y: nat | y != x :: y in after <==> y in before
    ensures |after| + One(x in before) == |before| + One(x in after)
  {
    var rest := before - {x};
    assert rest == after - {x};
    assert before == if x in before then rest + {x} else rest;
    assert after == if x in after then rest + {x} else rest;
  }

  lemma Members(s: State, item: Item)
    ensures forall i: Id :: i in Waiting(s, item) <==> ItemOf(s, i) == Some(item)
    ensures forall t: Tid :: t in Handlers(s, item) <==> Handles(PcOf(s, t), item)
  {
  }

  lemma StepPending(s: State, t: Tid, a: Action, s': State, item: Item)
    requires Next(s, t, a, s')
    ensures Pending(s', item) + One(Finishes(s, t, a, item)) == Pending(s, item) + One(Makes(s, t, a, s', item))
  {
    StepBalanced(s, t, a, s', item);
    StepFrame(s, t, a, s');
    hide Next, Finishes, Makes;
    var i := IdOf(a);
    Members(s, item);
    Members(s', item);
    hide Waiting, Handlers, Handles, ItemOf, PcOf;
    OneElement(Waiting(s, item), Waiting(s', item), i);
    OneElement(Handlers(s, item), Handlers(s', item), t);
  }

  function Made(states: seq<State>, moves: seq<(Tid, Action)>, k: nat, item: Item): nat
    requires k <= |moves| && |states| == |moves| + 1
  {
    if k == 0 then 0 else Made(states, moves, k - 1, item) + One(Makes(states[k - 1], moves[k - 1].0, moves[k - 1].1, states[k], item))
  }

  function Finished(states: seq<State>, moves: seq<(Tid, Action)>, k: nat, item: Item): nat
    requires k <= |moves| && |states| == |moves| + 1
  {
    if k == 0 then 0 else Finished(states, moves, k - 1, item) + One(Finishes(states[k - 1], moves[k - 1].0, moves[k - 1].1, item))
  }

  /** In every run, each task that was queued for a message and a channel, or for a message and a subscription,
      has been done to its end, or is in the queue or in the hands of one activity. */
  lemma {:induction false} NoTaskLost(states: seq<State>, moves: seq<(Tid, Action)>, k: nat, item: Item)
    requires IsRun(states, moves) && k <= |moves|
    ensures Made(states, moves, k, item) == Pending(states[k], item) + Finished(states, moves, k, item)
  {
    hide Next, Pending, Makes, Finishes;
    if k == 0 {
      NothingAtFirst(states[0], item);
    } else {
      NoTaskLost(states, moves, k - 1, item);
      StepPending(states[k - 1], moves[k - 1].0, moves[k - 1].1, states[k], item);
    }
  }

  lemma NothingAtFirst(s: State, item: Item)
    requires Init(s)
    ensures Pending(s, item) == 0
  {
    assert Waiting(s, item) == {} && Handlers(s, item) == {};
  }
}
