/** The life of timers over whole runs, as steps that any threads may interleave: a timer waits in the
    ordered list, then in the task queue, then runs on a thread, and either goes back to the list or
    is freed. */
module TimerRuns {
  import opened Timers

  /** A callback: a run of the task, or the final `on_finish`. */
  datatype Event = Ran(id: nat) | Finished(id: nat)

  /** How a freed timer ended: how many runs it was created for, and whether a clear cut it short. */
  datatype End = End(total: nat, cleared: bool)

  datatype State = State(
    now: Time,
    list: seq<Timer>,
    queue: seq<Timer>,
    running: seq<Timer>,
    freed: map<nat, End>,
    log: seq<Event>)

  datatype Step =
    | Create(id: nat, interval: nat, total: nat, task: bool, now: Time)
    | Tick(now: Time)
    | Schedule
    | Begin
    | Return(at: nat)
    | ClearAll

  ghost predicate Init(s: State) {
    Normal(s.now) && s.list == s.queue == s.running == [] && s.freed == map[] && s.log == []
  }

  // ---------------------------------------------------------------------------------------------
  // The steps

  /** `after` is what `AddOrder` may make of the list. */
  ghost predicate Added(before: seq<Timer>, t: Timer, now: Time, after: seq<Timer>) {
    Sorted(after) && InOrder(before, t.(due := Due(now, t.interval)), after)
  }

  /** What `fio_run_every` does not accept: no task, or neither an interval nor a number of repetitions. */
  predicate Unacceptable(interval: nat, total: nat, task: bool) {
    !task || (interval == 0 && total == 0)
  }

  /** `fio_run_every`. */
  ghost predicate CreateStep(s: State, s': State, id: nat, interval: nat, total: nat, task: bool, now: Time) {
    && Normal(now) && Places(s, id) == 0
    && if Unacceptable(interval, total, task) then s' == s
       else
         && Added(s.list, Timer(id, now, interval, total, total), now, s'.list)
         && s' == s.(now := now, list := s'.list)
  }

  /** Timers that are due go to the end of the task queue, in due order. */
  ghost predicate ScheduleStep(s: State, s': State) {
    exists k | 0 <= k <= |s.list| ::
      && (forall i :: 0 <= i < k ==> Nanos(s.list[i].due) <= Nanos(s.now))
      && (k < |s.list| ==> Nanos(s.list[k].due) > Nanos(s.now))
      && s' == s.(list := s.list[k..], queue := s.queue + s.list[..k])
  }

  /** A thread takes the oldest task and runs the timer's callback. */
  ghost predicate BeginStep(s: State, s': State) {
    && s.queue != []
    && s' == s.(queue := s.queue[1..], running := s.running + [s.queue[0]], log := s.log + [Ran(s.queue[0].id)])
  }

  function Without<T>(ts: seq<T>, at: nat): seq<T>
    requires at < |ts|
  {
    ts[..at] + ts[at + 1..]
  }

  /** The callback returned: a timer without end, or with runs left, goes back to the list; the last
      run is followed by `on_finish` and the timer is freed. */
  ghost predicate ReturnStep(s: State, s': State, at: nat) {
    && at < |s.running|
    && var t := s.running[at];
       if t.repetitions == 0 || t.repetitions - 1 != 0 then
         var next := t.(repetitions := if t.repetitions == 0 then 0 else t.repetitions - 1);
         && Added(s.list, next, s.now, s'.list)
         && s' == s.(running := Without(s.running, at), list := s'.list)
       else
         s' == s.(running := Without(s.running, at), freed := s.freed[t.id := End(t.total, false)],
                  log := s.log + [Finished(t.id)])
  }

  /** The `on_finish` calls of a clear: from the tail of the list to its head. */
  function FinishAll(ts: seq<Timer>): seq<Event> {
    if ts == [] then [] else [Finished(ts[|ts| - 1].id)] + FinishAll(ts[..|ts| - 1])
  }

  function FreeAll(freed: map<nat, End>, ts: seq<Timer>): map<nat, End>
    decreases ts
  {
    if ts == [] then freed else FreeAll(freed[ts[|ts| - 1].id := End(ts[|ts| - 1].total, true)], ts[..|ts| - 1])
  }

  ghost predicate Next(s: State, step: Step, s': State) {
    match step
    case Create(id, interval, total, task, now) => CreateStep(s, s', id, interval, total, task, now)
    case Tick(now) => Normal(now) && s' == s.(now := now)
    case Schedule => ScheduleStep(s, s')
    case Begin => BeginStep(s, s')
    case Return(at) => ReturnStep(s, s', at)
    case ClearAll => s' == s.(list := [], freed := FreeAll(s.freed, s.list), log := s.log + FinishAll(s.list))
  }

  // ---------------------------------------------------------------------------------------------
  // One timer

  function Count(log: seq<Event>, e: Event): nat {
    if log == [] then 0 else Count(log[..|log| - 1], e) + if log[|log| - 1] == e then 1 else 0
  }

  function Runs(s: State, id: nat): nat {
    Count(s.log, Ran(id))
  }

  function Finishes(s: State, id: nat): nat {
    Count(s.log, Finished(id))
  }

  /** How often a timer occurs in a list. */
  function Occurs(ts: seq<Timer>, id: nat): nat {
    if ts == [] then 0 else Occurs(ts[..|ts| - 1], id) + if ts[|ts| - 1].id == id then 1 else 0
  }

  /** How often it occurs in the list, in the queue, on a thread and among the freed. */
  function Places(s: State, id: nat): nat {
    Occurs(s.list, id) + Occurs(s.queue, id) + Occurs(s.running, id) + if id in s.freed then 1 else 0
  }

  /** Its counter and its runs add up; `extra` is 1 while it runs. */
  ghost predicate Counts(ts: seq<Timer>, id: nat, runs: nat, extra: nat) {
    forall t :: t in ts && t.id == id ==>
      if t.total == 0 then t.repetitions == 0
      else 1 <= t.repetitions && runs + t.repetitions == t.total + extra
  }

  /** Once `on_finish` has been called, no callback of the timer follows. */
  ghost predicate NothingAfterFinish(log: seq<Event>, id: nat) {
    log == [] ||
    (NothingAfterFinish(log[..|log| - 1], id)
     && (log[|log| - 1].id == id ==> Count(log[..|log| - 1], Finished(id)) == 0))
  }

  ghost predicate Inv(s: State, id: nat) {
    && Places(s, id) <= 1
    && Counts(s.list, id, Runs(s, id), 0)
    && Counts(s.queue, id, Runs(s, id), 0)
    && Counts(s.running, id, Runs(s, id), 1)
    && Finishes(s, id) == (if id in s.freed then 1 else 0)
    && (id in s.freed && !s.freed[id].cleared ==> Runs(s, id) == s.freed[id].total > 0)
    && (Places(s, id) == 0 ==> Runs(s, id) == 0)
    && NothingAfterFinish(s.log, id)
  }

  ghost predicate Ordered(s: State) {
    Normal(s.now) && Sorted(s.list)
  }

  lemma {:induction false} OccursConcat(a: seq<Timer>, b: seq<Timer>, id: nat)
    ensures Occurs(a + b, id) == Occurs(a, id) + Occurs(b, id)
  {
    if b == [] {
      assert a + b == a;
    } else {
      assert (a + b)[..|a + b| - 1] == a + b[..|b| - 1];
      OccursConcat(a, b[..|b| - 1], id);
    }
  }

  lemma {:induction false} OccursMember(ts: seq<Timer>, t: Timer)
    requires t in ts
    ensures Occurs(ts, t.id) >= 1
  {
    if ts[|ts| - 1] != t {
      OccursMember(ts[..|ts| - 1], t);
    }
  }

  lemma OccursOne(t: Timer, id: nat)
    ensures Occurs([t], id) == if t.id == id then 1 else 0
  {
    assert [t][..0] == [];
  }

  lemma OccursAdded(before: seq<Timer>, t: Timer, after: seq<Timer>, id: nat)
    requires InOrder(before, t, after)
    ensures Occurs(after, id) == Occurs(before, id) + if t.id == id then 1 else 0
    ensures forall u :: u in after ==> u in before || u == t
  {
    var k :| 0 <= k <= |before| && after == before[..k] + [t] + before[k..];
    OccursConcat(before[..k] + [t], before[k..], id);
    OccursConcat(before[..k], [t], id);
    OccursConcat(before[..k], before[k..], id);
    OccursOne(t, id);
    assert before == before[..k] + before[k..];
  }

  lemma OccursWithout(ts: seq<Timer>, at: nat, id: nat)
    requires at < |ts|
    ensures Occurs(ts, id) == Occurs(Without(ts, at), id) + if ts[at].id == id then 1 else 0
    ensures forall u :: u in Without(ts, at) ==> u in ts
  {
    assert ts == ts[..at] + [ts[at]] + ts[at + 1..];
    OccursConcat(ts[..at] + [ts[at]], ts[at + 1..], id);
    OccursConcat(ts[..at], [ts[at]], id);
    OccursConcat(ts[..at], ts[at + 1..], id);
    OccursOne(ts[at], id);
  }

  lemma CountSnoc(log: seq<Event>, e: Event, id: nat)
    ensures Count(log + [e], Ran(id)) == Count(log, Ran(id)) + if e == Ran(id) then 1 else 0
    ensures Count(log + [e], Finished(id)) == Count(log, Finished(id)) + if e == Finished(id) then 1 else 0
    ensures NothingAfterFinish(log, id) && (e.id == id ==> Count(log, Finished(id)) == 0)
        ==> NothingAfterFinish(log + [e], id)
  {
    assert (log + [e])[..|log|] == log;
  }

  /** A list in which the timer does not occur says nothing about it. */
  lemma Absent(ts: seq<Timer>, id: nat, runs: nat, extra: nat)
    requires Occurs(ts, id) == 0
    ensures Counts(ts, id, runs, extra)
  {
    forall t | t in ts && t.id == id ensures false {
      OccursMember(ts, t);
    }
  }

  // ---------------------------------------------------------------------------------------------
  // Each step keeps the invariant

  lemma CreateKeeps(s: State, s': State, new': nat, interval: nat, total: nat, task: bool, now: Time, id: nat)
    requires Inv(s, id) && CreateStep(s, s', new', interval, total, task, now)
    ensures Inv(s', id) && Places(s', id) >= Places(s, id)
  {
    hide Occurs, Count, NothingAfterFinish;
    if !Unacceptable(interval, total, task) {
      OccursAdded(s.list, Timer(new', Due(now, interval), interval, total, total), s'.list, id);
    }
  }

  lemma CountsMoved(list: seq<Timer>, queue: seq<Timer>, k: nat, id: nat, runs: nat)
    requires k <= |list| && Counts(list, id, runs, 0) && Counts(queue, id, runs, 0)
    ensures Counts(list[k..], id, runs, 0) && Counts(queue + list[..k], id, runs, 0)
  {
    assert forall t :: t in list[k..] ==> t in list;
    assert forall t :: t in queue + list[..k] ==> t in queue || t in list;
  }

  lemma MovedKeeps(s: State, s': State, k: nat, id: nat)
    requires Inv(s, id) && k <= |s.list| && s' == s.(list := s.list[k..], queue := s.queue + s.list[..k])
    ensures Inv(s', id) && Places(s', id) >= Places(s, id)
  {
    hide Occurs, Count, NothingAfterFinish, Counts;
    OccursConcat(s.list[..k], s.list[k..], id);
    assert s.list == s.list[..k] + s.list[k..];
    OccursConcat(s.queue, s.list[..k], id);
    CountsMoved(s.list, s.queue, k, id, Runs(s, id));
  }

  lemma ScheduleKeeps(s: State, s': State, id: nat)
    requires Inv(s, id) && ScheduleStep(s, s')
    ensures Inv(s', id) && Places(s', id) >= Places(s, id)
  {
    hide Inv, Places;
    var k :| 0 <= k <= |s.list|
      && (forall i :: 0 <= i < k ==> Nanos(s.list[i].due) <= Nanos(s.now))
      && (k < |s.list| ==> Nanos(s.list[k].due) > Nanos(s.now))
      && s' == s.(list := s.list[k..], queue := s.queue + s.list[..k]);
    MovedKeeps(s, s', k, id);
  }

  lemma BeginPlaces(s: State, s': State, id: nat)
    requires BeginStep(s, s')
    ensures Occurs(s.queue, id) == Occurs(s'.queue, id) + if s.queue[0].id == id then 1 else 0
    ensures Occurs(s'.running, id) == Occurs(s.running, id) + if s.queue[0].id == id then 1 else 0
  {
    OccursWithout(s.queue, 0, id);
    assert Without(s.queue, 0) == s.queue[1..];
    OccursConcat(s.running, [s.queue[0]], id);
    OccursOne(s.queue[0], id);
  }

  lemma BeginThis(s: State, s': State, id: nat)
    requires Inv(s, id) && BeginStep(s, s') && s.queue[0].id == id
    requires Runs(s', id) == Runs(s, id) + 1 && Occurs(s.list, id) + Occurs(s.queue[1..], id) + Occurs(s.running, id) == 0
    ensures Counts(s'.list, id, Runs(s', id), 0) && Counts(s'.queue, id, Runs(s', id), 0)
    ensures Counts(s'.running, id, Runs(s', id), 1)
  {
    Absent(s.list, id, Runs(s', id), 0);
    Absent(s.queue[1..], id, Runs(s', id), 0);
    Absent(s.running, id, Runs(s', id), 1);
    assert s.queue[0] in s.queue;
  }

  lemma BeginOther(s: State, s': State, id: nat)
    requires Inv(s, id) && BeginStep(s, s') && s.queue[0].id != id && Runs(s', id) == Runs(s, id)
    ensures Counts(s'.list, id, Runs(s', id), 0) && Counts(s'.queue, id, Runs(s', id), 0)
    ensures Counts(s'.running, id, Runs(s', id), 1)
  {
    assert forall u :: u in s.queue[1..] ==> u in s.queue;
  }

  lemma BeginKeeps(s: State, s': State, id: nat)
    requires Inv(s, id) && BeginStep(s, s')
    ensures Inv(s', id) && Places(s', id) >= Places(s, id)
  {
    hide Occurs, Count, NothingAfterFinish;
    BeginPlaces(s, s', id);
    CountSnoc(s.log, Ran(s.queue[0].id), id);
    if s.queue[0].id == id {
      BeginThis(s, s', id);
    } else {
      BeginOther(s, s', id);
    }
  }

  lemma ReturnKeeps(s: State, s': State, at: nat, id: nat)
    requires Inv(s, id) && ReturnStep(s, s', at)
    ensures Inv(s', id) && Places(s', id) >= Places(s, id)
  {
    hide Occurs, Count, NothingAfterFinish;
    var t := s.running[at];
    OccursWithout(s.running, at, id);
    if t.repetitions == 0 || t.repetitions - 1 != 0 {
      var next := t.(repetitions := if t.repetitions == 0 then 0 else t.repetitions - 1);
      OccursAdded(s.list, next.(due := Due(s.now, next.interval)), s'.list, id);
    } else {
      CountSnoc(s.log, Finished(t.id), id);
    }
  }

  lemma {:induction false} FinishAllOf(log: seq<Event>, ts: seq<Timer>, id: nat)
    requires Occurs(ts, id) <= 1 && (Occurs(ts, id) == 1 ==> Count(log, Finished(id)) == 0)
    requires NothingAfterFinish(log, id)
    ensures var after := log + FinishAll(ts);
      && Count(after, Ran(id)) == Count(log, Ran(id))
      && Count(after, Finished(id)) == Count(log, Finished(id)) + Occurs(ts, id)
      && NothingAfterFinish(after, id)
    decreases |ts|
  {
    if ts == [] {
      assert log + FinishAll(ts) == log;
    } else {
      var t, rest := ts[|ts| - 1], ts[..|ts| - 1];
      CountSnoc(log, Finished(t.id), id);
      FinishAllOf(log + [Finished(t.id)], rest, id);
      assert log + FinishAll(ts) == log + [Finished(t.id)] + FinishAll(rest);
    }
  }

  lemma {:induction false} FreeAllOf(freed: map<nat, End>, ts: seq<Timer>, id: nat)
    requires Occurs(ts, id) <= 1
    ensures id in FreeAll(freed, ts) <==> id in freed || Occurs(ts, id) == 1
    ensures Occurs(ts, id) == 0 && id in freed ==> FreeAll(freed, ts)[id] == freed[id]
    ensures Occurs(ts, id) == 1 ==> FreeAll(freed, ts)[id].cleared
    decreases |ts|
  {
    if ts != [] {
      var t := ts[|ts| - 1];
      FreeAllOf(freed[t.id := End(t.total, true)], ts[..|ts| - 1], id);
    }
  }

  lemma ClearKeeps(s: State, s': State, id: nat)
    requires Inv(s, id) && Next(s, ClearAll, s')
    ensures Inv(s', id) && Places(s', id) >= Places(s, id)
  {
    FinishAllOf(s.log, s.list, id);
    FreeAllOf(s.freed, s.list, id);
  }

  lemma StepKeeps(s: State, step: Step, s': State, id: nat)
    requires Inv(s, id) && Ordered(s) && Next(s, step, s')
    ensures Inv(s', id) && Ordered(s') && Places(s', id) >= Places(s, id)
  {
    match step
    case Create(new', interval, total, task, now) => CreateKeeps(s, s', new', interval, total, task, now, id);
    case Tick(now) =>
    case Schedule => ScheduleKeeps(s, s', id);
    case Begin => BeginKeeps(s, s', id);
    case Return(at) => ReturnKeeps(s, s', at, id);
    case ClearAll => ClearKeeps(s, s', id);
  }

  // ---------------------------------------------------------------------------------------------
  // Whole runs

  ghost predicate IsRun(states: seq<State>, steps: seq<Step>) {
    && |states| == |steps| + 1 && Init(states[0])
    && forall i :: 0 <= i < |steps| ==> Next(states[i], steps[i], states[i + 1])
  }

  lemma {:induction false} RunKeeps(states: seq<State>, steps: seq<Step>, id: nat)
    requires IsRun(states, steps)
    ensures Inv(states[|steps|], id) && Ordered(states[|steps|])
    decreases |steps|
  {
    if steps != [] {
      var n := |steps| - 1;
      assert states[..n + 1][n] == states[n];
      RunKeeps(states[..n + 1], steps[..n], id);
      StepKeeps(states[n], steps[n], states[n + 1], id);
    }
  }

  /** In every run, for every timer: it is in at most one place; one that ended on its own ran exactly
      as often as it was created for, which is not 0, and `on_finish` came once and last; no
      `on_finish` comes twice. */
  lemma TimersRunExactly(states: seq<State>, steps: seq<Step>, id: nat)
    requires IsRun(states, steps)
    ensures var s := states[|steps|];
      && Places(s, id) <= 1 && Finishes(s, id) <= 1
      && (id in s.freed <==> Finishes(s, id) == 1)
      && (id in s.freed && !s.freed[id].cleared ==> Runs(s, id) == s.freed[id].total > 0)
      && NothingAfterFinish(s.log, id)
  {
    RunKeeps(states, steps, id);
  }

  /** A timer that exists stays in exactly one place for the rest of the run. */
  lemma {:induction false} TimersAreNeverLost(states: seq<State>, steps: seq<Step>, i: nat, id: nat)
    requires IsRun(states, steps) && i <= |steps| && Places(states[i], id) > 0
    ensures Places(states[i], id) == Places(states[|steps|], id) == 1
    decreases |steps|
  {
    RunKeeps(states, steps, id);
    if i < |steps| {
      var n := |steps| - 1;
      assert states[..n + 1][n] == states[n] && states[..n + 1][i] == states[i];
      TimersAreNeverLost(states[..n + 1], steps[..n], i, id);
      RunKeeps(states[..n + 1], steps[..n], id);
      StepKeeps(states[n], steps[n], states[n + 1], id);
    }
  }

  // ---------------------------------------------------------------------------------------------
  // What a call of `fio_run_every` asks for

  /** A call calls nothing back, and it makes no timer if and only if it is not acceptable: then `on_finish` is
      never called for it. */
  lemma NothingMadeIff(s: State, s': State, id: nat, interval: nat, total: nat, task: bool, now: Time)
    requires Inv(s, id) && CreateStep(s, s', id, interval, total, task, now)
    ensures s'.log == s.log && Finishes(s', id) == 0
    ensures Places(s', id) == (if Unacceptable(interval, total, task) then 0 else 1)
  {
    if !Unacceptable(interval, total, task) {
      OccursAdded(s.list, Timer(id, Due(now, interval), interval, total, total), s'.list, id);
    }
  }

  /** A run whose one call is refused: no timer, and no `on_finish`. */
  lemma RefusedWitness(now: Time) returns (states: seq<State>, steps: seq<Step>)
    requires Normal(now)
    ensures IsRun(states, steps) && steps == [Create(0, 0, 0, true, now)]
    ensures Places(states[1], 0) == 0 && states[1].log == []
  {
    var s := State(now, [], [], [], map[], []);
    states, steps := [s, s], [Create(0, 0, 0, true, now)];
    assert CreateStep(s, s, 0, 0, 0, true, now);
  }

  /** The number of runs and the interval that were asked for stay with the timer. */
  ghost predicate AskedFor(s: State, id: nat, n: nat, interval: nat) {
    && (forall t | t in s.list && t.id == id :: t.total == n && t.interval == interval)
    && (forall t | t in s.queue && t.id == id :: t.total == n && t.interval == interval)
    && (forall t | t in s.running && t.id == id :: t.total == n && t.interval == interval)
    && (id in s.freed ==> s.freed[id].total == n)
  }

  lemma {:induction false} FreeAllTotal(freed: map<nat, End>, ts: seq<Timer>, id: nat, n: nat)
    requires (id in freed ==> freed[id].total == n) && forall t | t in ts && t.id == id :: t.total == n
    ensures id in FreeAll(freed, ts) ==> FreeAll(freed, ts)[id].total == n
    decreases |ts|
  {
    if ts != [] {
      var t, rest := ts[|ts| - 1], ts[..|ts| - 1];
      assert t in ts;
      FreeAllTotal(freed[t.id := End(t.total, true)], rest, id, n);
    }
  }

  lemma ReturnKeepsAsked(s: State, s': State, at: nat, id: nat, n: nat, interval: nat)
    requires AskedFor(s, id, n, interval) && ReturnStep(s, s', at)
    ensures AskedFor(s', id, n, interval)
  {
    hide Occurs, Sorted;
    var t := s.running[at];
    assert t in s.running;
    OccursWithout(s.running, at, id);
    if t.repetitions == 0 || t.repetitions - 1 != 0 {
      var next := t.(repetitions := if t.repetitions == 0 then 0 else t.repetitions - 1);
      OccursAdded(s.list, next.(due := Due(s.now, next.interval)), s'.list, id);
    }
  }

  lemma MovedKeepsAsked(s: State, s': State, id: nat, n: nat, interval: nat)
    requires AskedFor(s, id, n, interval) && (ScheduleStep(s, s') || BeginStep(s, s'))
    ensures AskedFor(s', id, n, interval)
  {
    forall t | t in s'.list || t in s'.queue || t in s'.running ensures t in s.list || t in s.queue || t in s.running {
    }
  }

  lemma StepKeepsAsked(s: State, step: Step, s': State, id: nat, n: nat, interval: nat)
    requires AskedFor(s, id, n, interval) && Places(s, id) > 0 && Next(s, step, s')
    ensures AskedFor(s', id, n, interval)
  {
    match step
    case Create(new', every, total, task, now) =>
      if !Unacceptable(every, total, task) {
        OccursAdded(s.list, Timer(new', Due(now, every), every, total, total), s'.list, id);
      }
    case Tick(now) =>
    case Schedule => MovedKeepsAsked(s, s', id, n, interval);
    case Begin => MovedKeepsAsked(s, s', id, n, interval);
    case Return(at) => ReturnKeepsAsked(s, s', at, id, n, interval);
    case ClearAll => FreeAllTotal(s.freed, s.list, id, n);
  }

  /** A timer that a call made with `n` runs, and that ended on its own, ran `n` times, which is not 0. */
  lemma {:induction false} RunsAsAsked(states: seq<State>, steps: seq<Step>, i: nat, j: nat)
    requires IsRun(states, steps) && i < j <= |steps| && steps[i].Create?
    requires !Unacceptable(steps[i].interval, steps[i].total, steps[i].task)
    ensures var s, id := states[j], steps[i].id;
      && AskedFor(s, id, steps[i].total, steps[i].interval) && Places(s, id) == 1
      && (id in s.freed && !s.freed[id].cleared ==> Runs(s, id) == steps[i].total > 0)
    decreases j
  {
    var id, n := steps[i].id, steps[i].total;
    assert states[..j + 1][j] == states[j] && states[..i + 1][i] == states[i];
    RunKeeps(states[..j + 1], steps[..j], id);
    if j == i + 1 {
      var s, s' := states[i], states[j];
      RunKeeps(states[..i + 1], steps[..i], id);
      assert Next(s, steps[i], s');
      FirstAsked(s, s', id, steps[i].interval, n, steps[i].task, steps[i].now);
    } else {
      RunsAsAsked(states, steps, i, j - 1);
      assert states[..j][j - 1] == states[j - 1];
      RunKeeps(states[..j], steps[..j - 1], id);
      assert Next(states[j - 1], steps[j - 1], states[j]);
      StepKeepsAsked(states[j - 1], steps[j - 1], states[j], id, n, steps[i].interval);
      StepKeeps(states[j - 1], steps[j - 1], states[j], id);
    }
  }

  lemma FirstAsked(s: State, s': State, id: nat, interval: nat, n: nat, task: bool, now: Time)
    requires Inv(s, id) && CreateStep(s, s', id, interval, n, task, now) && !Unacceptable(interval, n, task)
    ensures AskedFor(s', id, n, interval) && Places(s', id) == 1
  {
    NothingMadeIff(s, s', id, interval, n, task, now);
    OccursAdded(s.list, Timer(id, Due(now, interval), interval, n, n), s'.list, id);
    forall t | (t in s.list || t in s.queue || t in s.running) && t.id == id ensures false {
      if t in s.list {
        OccursMember(s.list, t);
      } else if t in s.queue {
        OccursMember(s.queue, t);
      } else {
        OccursMember(s.running, t);
      }
    }
  }

  // ---------------------------------------------------------------------------------------------
  // When a timer runs, and how it ends

  /** The list has a timer of that kind which is due `interval` milliseconds from `now`. */
  ghost predicate DueIn(list: seq<Timer>, id: nat, now: Time, interval: nat, repetitions: nat) {
    exists t :: t in list && t.id == id && t.interval == interval && t.repetitions == repetitions
                && Nanos(t.due) == Nanos(now) + interval * 1_000_000
  }

  lemma AddedIsDue(before: seq<Timer>, t: Timer, now: Time, after: seq<Timer>)
    requires Added(before, t, now, after)
    ensures DueIn(after, t.id, now, t.interval, t.repetitions)
  {
    var timer := t.(due := Due(now, t.interval));
    var k: nat :| Belongs(before, timer.due, k) && after == before[..k] + [timer] + before[k..];
    assert after[k] == timer;
  }

  /** A timer that was made is due after its interval; and a callback that returns puts its timer back, due after its
      interval from then and with one run less to come, unless that was the last run. */
  lemma DueAfterInterval(states: seq<State>, steps: seq<Step>, i: nat)
    requires IsRun(states, steps) && i < |steps|
    ensures steps[i].Create? && !Unacceptable(steps[i].interval, steps[i].total, steps[i].task) ==>
      DueIn(states[i + 1].list, steps[i].id, steps[i].now, steps[i].interval, steps[i].total)
    ensures steps[i].Return? ==> steps[i].at < |states[i].running|
    ensures steps[i].Return? ==> (var t := states[i].running[steps[i].at];
      if t.repetitions == 1 then t.id in states[i + 1].freed && states[i + 1].list == states[i].list
      else DueIn(states[i + 1].list, t.id, states[i].now, t.interval, if t.repetitions == 0 then 0 else t.repetitions - 1))
  {
    var s, s' := states[i], states[i + 1];
    assert Next(s, steps[i], s');
    match steps[i]
    case Create(id, interval, total, task, now) =>
      if !Unacceptable(interval, total, task) {
        AddedIsDue(s.list, Timer(id, now, interval, total, total), now, s'.list);
      }
    case Return(at) =>
      var t := s.running[at];
      if t.repetitions != 1 {
        AddedIsDue(s.list, t.(repetitions := if t.repetitions == 0 then 0 else t.repetitions - 1), s.now, s'.list);
      }
    case _ =>
  }

  /** Scheduling takes exactly the timers that are due. */
  lemma ScheduledWhenDue(states: seq<State>, steps: seq<Step>, i: nat, t: Timer)
    requires IsRun(states, steps) && i < |steps| && steps[i] == Schedule && t in states[i].list
    ensures if Nanos(t.due) <= Nanos(states[i].now) then t in states[i + 1].queue else t in states[i + 1].list
  {
    var s, s' := states[i], states[i + 1];
    assert states[..i + 1][i] == s;
    RunKeeps(states[..i + 1], steps[..i], 0);
    assert Next(s, Schedule, s');
    SplitWhenDue(s, s', t);
  }

  lemma SplitWhenDue(s: State, s': State, t: Timer)
    requires Next(s, Schedule, s') && Sorted(s.list) && t in s.list
    ensures if Nanos(t.due) <= Nanos(s.now) then t in s'.queue else t in s'.list
  {
    hide Nanos, Compare;
    var k :| 0 <= k <= |s.list| && (forall j :: 0 <= j < k ==> Nanos(s.list[j].due) <= Nanos(s.now))
      && (k < |s.list| ==> Nanos(s.list[k].due) > Nanos(s.now))
      && s' == s.(list := s.list[k..], queue := s.queue + s.list[..k]);
    var j :| 0 <= j < |s.list| && s.list[j] == t;
    if j < k {
      assert s.list[..k][j] == t && t in s.list[..k];
    } else {
      CompareOrders(s.list[k].due, s.list[j].due);
      assert s.list[k..][j - k] == t;
    }
  }

  lemma {:induction false} FreeAllAre(freed: map<nat, End>, ts: seq<Timer>, id: nat)
    ensures var all := FreeAll(freed, ts);
      && (id in all <==> id in freed || exists t :: t in ts && t.id == id)
      && (id in all && (exists t :: t in ts && t.id == id) ==> all[id].cleared)
      && (id in all && !(exists t :: t in ts && t.id == id) ==> all[id] == freed[id])
    decreases |ts|
  {
    if ts != [] {
      var last, rest := ts[|ts| - 1], ts[..|ts| - 1];
      FreeAllAre(freed[last.id := End(last.total, true)], rest, id);
      assert ts == rest + [last];
    }
  }

  /** A timer ends by a clear if and only if it was in the list then; otherwise it ends when its last run returns. */
  lemma ClearedIff(states: seq<State>, steps: seq<Step>, i: nat, id: nat)
    requires IsRun(states, steps) && i < |steps| && id !in states[i].freed && id in states[i + 1].freed
    ensures states[i + 1].freed[id].cleared <==> steps[i] == ClearAll
    ensures steps[i] == ClearAll ==> exists t :: t in states[i].list && t.id == id
    ensures steps[i] != ClearAll ==> steps[i].Return? && steps[i].at < |states[i].running|
    ensures steps[i].Return? && steps[i].at < |states[i].running| ==>
      states[i].running[steps[i].at].id == id && states[i].running[steps[i].at].repetitions == 1
  {
    var s, s' := states[i], states[i + 1];
    assert Next(s, steps[i], s');
    if steps[i] == ClearAll {
      FreeAllAre(s.freed, s.list, id);
    }
  }

  /** A clear ends every timer in the list. */
  lemma ClearEndsAll(states: seq<State>, steps: seq<Step>, i: nat, t: Timer)
    requires IsRun(states, steps) && i < |steps| && steps[i] == ClearAll && t in states[i].list
    ensures states[i + 1].list == [] && t.id in states[i + 1].freed && states[i + 1].freed[t.id].cleared
  {
    assert Next(states[i], ClearAll, states[i + 1]);
    FreeAllAre(states[i].freed, states[i].list, t.id);
  }

  // ---------------------------------------------------------------------------------------------
  // No timer gets stuck

  /** A list has a place for every timer. */
  lemma {:induction false} PlaceFor(before: seq<Timer>, due: Time, bound: int, n: nat) returns (k: nat)
    requires Sorted(before) && Normal(due) && n <= |before|
    ensures k <= n && forall i | 0 <= i < n :: i < k <==> Compare(before[i].due, due) >= bound
    decreases n
  {
    k := 0;
    if n > 0 {
      k := PlaceFor(before, due, bound, n - 1);
      if k == n - 1 {
        k := if Compare(before[n - 1].due, due) >= bound then n else n - 1;
      } else {
        assert Compare(before[k].due, before[n - 1].due) >= 0;
        LaterToo(before[k].due, before[n - 1].due, due);
      }
    }
  }

  lemma LaterToo(a: Time, b: Time, due: Time)
    requires Compare(a, b) >= 0
    ensures Compare(b, due) <= Compare(a, due)
  {
  }

  lemma CanBeAdded(before: seq<Timer>, t: Timer, now: Time) returns (after: seq<Timer>)
    requires Sorted(before) && Normal(now)
    ensures Added(before, t, now, after)
  {
    var timer := t.(due := Due(now, t.interval));
    var k := PlaceFor(before, timer.due, if GoesBehind(before, timer.due) then 0 else 1, |before|);
    after := before[..k] + [timer] + before[k..];
    assert Belongs(before, timer.due, k);
    forall i | 0 <= i < |before|
      ensures i < k ==> Compare(before[i].due, timer.due) >= 0
      ensures i >= k ==> Compare(timer.due, before[i].due) >= 0
    {
    }
    hide Belongs, GoesBehind;
    assert Sorted(after);
  }

  ghost predicate CanStep(s: State, step: Step) {
    exists s' :: Next(s, step, s')
  }

  lemma {:induction false} DueUpTo(list: seq<Timer>, now: Time) returns (k: nat)
    ensures k <= |list| && (forall i :: 0 <= i < k ==> Nanos(list[i].due) <= Nanos(now))
    ensures k < |list| ==> Nanos(list[k].due) > Nanos(now)
    decreases |list|
  {
    k := 0;
    if list != [] && Nanos(list[0].due) <= Nanos(now) {
      var rest := DueUpTo(list[1..], now);
      k := rest + 1;
      assert forall i :: 0 < i < k ==> list[i] == list[1..][i - 1];
    }
  }

  /** In every reachable state due timers can be scheduled, the oldest one in the queue can be run, and every callback
      that runs can return. */
  lemma NeverStuck(states: seq<State>, steps: seq<Step>, i: nat)
    requires IsRun(states, steps) && i <= |steps|
    ensures CanStep(states[i], Schedule)
    ensures states[i].queue != [] ==> CanStep(states[i], Begin)
    ensures forall at: nat | at < |states[i].running| :: CanStep(states[i], Return(at))
  {
    var s := states[i];
    assert states[..i + 1][i] == s;
    RunKeeps(states[..i + 1], steps[..i], 0);
    hide IsRun, Inv, Sorted;
    var k := DueUpTo(s.list, s.now);
    assert Next(s, Schedule, s.(list := s.list[k..], queue := s.queue + s.list[..k]));
    if s.queue != [] {
      assert Next(s, Begin, s.(queue := s.queue[1..], running := s.running + [s.queue[0]], log := s.log + [Ran(s.queue[0].id)]));
    }
    forall at: nat | at < |s.running| ensures CanStep(s, Return(at)) {
      CanReturn(s, at);
    }
  }

  lemma CanReturn(s: State, at: nat)
    requires Ordered(s) && at < |s.running|
    ensures CanStep(s, Return(at))
  {
    hide Added;
    var t := s.running[at];
    if t.repetitions == 1 {
      assert Next(s, Return(at), s.(running := Without(s.running, at), freed := s.freed[t.id := End(t.total, false)],
                                    log := s.log + [Finished(t.id)]));
    } else {
      var next := t.(repetitions := if t.repetitions == 0 then 0 else t.repetitions - 1);
      var after := CanBeAdded(s.list, next, s.now);
      assert Next(s, Return(at), s.(running := Without(s.running, at), list := after));
    }
  }

  /** Every call of `fio_run_every` can be made. */
  lemma CreateCanStart(states: seq<State>, steps: seq<Step>, i: nat, id: nat, interval: nat, total: nat, task: bool, now: Time)
    requires IsRun(states, steps) && i <= |steps| && Normal(now) && Places(states[i], id) == 0
    ensures CanStep(states[i], Create(id, interval, total, task, now))
  {
    var s := states[i];
    assert states[..i + 1][i] == s;
    RunKeeps(states[..i + 1], steps[..i], id);
    hide Added, IsRun, Inv;
    if Unacceptable(interval, total, task) {
      assert Next(s, Create(id, interval, total, task, now), s);
    } else {
      var after := CanBeAdded(s.list, Timer(id, now, interval, total, total), now);
      assert Next(s, Create(id, interval, total, task, now), s.(now := now, list := after));
    }
  }

  /** A thread that takes a task from the queue runs the timer that waited there longest, once. */
  lemma OldestRuns(states: seq<State>, steps: seq<Step>, i: nat, id: nat)
    requires IsRun(states, steps) && i < |steps| && steps[i] == Begin
    ensures states[i].queue != []
    ensures Runs(states[i + 1], id) == Runs(states[i], id) + if id == states[i].queue[0].id then 1 else 0
    ensures states[i + 1].queue == states[i].queue[1..] && states[i + 1].running == states[i].running + [states[i].queue[0]]
  {
    var s, s' := states[i], states[i + 1];
    assert Next(s, Begin, s');
    CountSnoc(s.log, Ran(s.queue[0].id), id);
  }
}
