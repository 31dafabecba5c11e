/** Timers: an ordered list of due times, and the life of a timer between the list, the task queue and
    the thread that runs it. */
module Timers {

  const SECOND := 1_000_000_000  // in nanoseconds
  const TAIL_PROBE_LIMIT := 16

  datatype Time = Time(sec: int, nsec: int)

  predicate Normal(t: Time) {
    0 <= t.nsec < SECOND
  }

  /** A time as one number of nanoseconds. */
  function Nanos(t: Time): int {
    t.sec * SECOND + t.nsec
  }

  /** Negative if `a` is later, 0 if they are equal. */
  function Compare(a: Time, b: Time): int {
    if a.sec == b.sec then (if a.nsec < b.nsec then 1 else if a.nsec > b.nsec then -1 else 0)
    else if a.sec < b.sec then 1 else -1
  }

  lemma CompareOrders(a: Time, b: Time)
    requires Normal(a) && Normal(b)
    ensures Compare(a, b) >= 0 <==> Nanos(a) <= Nanos(b)
    ensures Compare(a, b) == 0 <==> a == b
  {
  }

  /** `interval` milliseconds from `now`. */
  method CalcDue(now: Time, interval: nat) returns (due: Time)
    requires Normal(now)
    ensures due == Due(now, interval)
  {
    var sec, nsec, rest := now.sec, now.nsec, interval;
    if rest >= 1000 {
      var secs := rest / 1000;
      sec := sec + secs;
      rest := rest - secs * 1000;
    }
    nsec := nsec + rest * 1_000_000;
    if nsec >= SECOND {
      nsec := nsec - SECOND;
      sec := sec + 1;
    }
    due := Time(sec, nsec);
    DueIs(now, interval, due);
  }

  ghost function Due(now: Time, interval: nat): (due: Time)
    ensures Normal(due) && Nanos(due) == Nanos(now) + interval * 1_000_000
  {
    var n := Nanos(now) + interval * 1_000_000;
    Time(n / SECOND, n % SECOND)
  }

  lemma DueIs(now: Time, interval: nat, due: Time)
    requires Normal(due) && Nanos(due) == Nanos(now) + interval * 1_000_000
    ensures due == Due(now, interval)
  {
  }

  // ---------------------------------------------------------------------------------------------
  // The ordered list

  /** `repetitions` are the runs still to come, `total` those asked for; 0 means without end. */
  datatype Timer = Timer(id: nat, due: Time, interval: nat, repetitions: nat, total: nat)

  ghost predicate Sorted(ts: seq<Timer>) {
    && (forall i :: 0 <= i < |ts| ==> Normal(ts[i].due))
    && (forall i, j :: 0 <= i <= j < |ts| ==> Compare(ts[i].due, ts[j].due) >= 0)
  }

  /** The timer goes behind those that are due at the same time: if none is due later, or if it is not due
      first and one of the last sixteen is not due later. Otherwise it goes before them. */
  predicate GoesBehind(before: seq<Timer>, due: Time) {
    var n := |before|;
    || n == 0 || Compare(before[n - 1].due, due) >= 0
    || (Compare(before[0].due, due) > 0
        && Compare(before[if n > TAIL_PROBE_LIMIT then n - TAIL_PROBE_LIMIT else 0].due, due) >= 0)
  }

  /** The place of a timer: before it stands what is due earlier, and what is due at the same time if it goes
      behind that. */
  ghost predicate Belongs(before: seq<Timer>, due: Time, k: nat) {
    && k <= |before|
    && forall i | 0 <= i < |before| :: i < k <==> Compare(before[i].due, due) >= if GoesBehind(before, due) then 0 else 1
  }

  /** `after` is `before` with `t` added where it belongs. */
  ghost predicate InOrder(before: seq<Timer>, t: Timer, after: seq<Timer>) {
    exists k: nat :: Belongs(before, t.due, k) && after == before[..k] + [t] + before[k..]
  }

  lemma LastPlace(before: seq<Timer>, due: Time)
    requires Sorted(before) && (before == [] || Compare(due, before[|before| - 1].due) <= 0)
    ensures Belongs(before, due, |before|)
  {
  }

  lemma FirstPlace(before: seq<Timer>, due: Time)
    requires Sorted(before) && before != [] && Compare(due, before[|before| - 1].due) > 0 && Compare(due, before[0].due) >= 0
    ensures Belongs(before, due, 0)
  {
  }

  /** Behind one of the last sixteen that is not later. */
  lemma PlaceBehind(before: seq<Timer>, due: Time, k: nat)
    requires Sorted(before) && 0 < k < |before| < k + TAIL_PROBE_LIMIT && Compare(due, before[0].due) < 0
    requires Compare(before[k - 1].due, due) >= 0 && Compare(before[k].due, due) < 0
    ensures Belongs(before, due, k)
  {
  }

  /** Before the first that is not earlier. */
  lemma PlaceBefore(before: seq<Timer>, due: Time, k: nat)
    requires Sorted(before) && 0 < k < |before| && TAIL_PROBE_LIMIT < |before|
    requires Compare(before[|before| - TAIL_PROBE_LIMIT].due, due) < 0
    requires Compare(due, before[k - 1].due) < 0 && Compare(due, before[k].due) >= 0
    ensures Belongs(before, due, k)
  {
  }

  class TimerList {
    var timers: seq<Timer>

    constructor ()
      ensures timers == []
    {
      timers := [];
    }

    /** Places a timer before position `k`. */
    method Place(k: nat, timer: Timer)
      requires Sorted(timers) && Normal(timer.due) && Belongs(timers, timer.due, k)
      modifies this
      ensures Sorted(timers) && InOrder(old(timers), timer, timers)
    {
      ghost var before := timers;
      forall i | 0 <= i < |before|
        ensures i < k ==> Compare(before[i].due, timer.due) >= 0
        ensures i >= k ==> Compare(timer.due, before[i].due) >= 0
      {
      }
      hide Belongs;
      timers := timers[..k] + [timer] + timers[k..];
    }

    /** Puts a timer in its place: behind the last one, before the first one, behind one of the last
        sixteen that is not later, or before the first that is not earlier. The list never runs out
        without a place. */
    method AddOrder(t: Timer, now: Time)
      requires Sorted(timers) && Normal(now)
      modifies this
      ensures Sorted(timers) && InOrder(old(timers), t.(due := Due(now, t.interval)), timers)
    {
      hide Belongs, InOrder;
      var due := CalcDue(now, t.interval);
      var timer := t.(due := due);
      var n := |timers|;
      if n == 0 {
        LastPlace(timers, due);
        Place(0, timer);
        return;
      }
      if Compare(timer.due, timers[n - 1].due) <= 0 {
        LastPlace(timers, due);
        Place(n, timer);
        return;
      }
      if Compare(timer.due, timers[0].due) >= 0 {
        FirstPlace(timers, due);
        Place(0, timer);
        return;
      }
      var i, node := 0, n;
      while i < TAIL_PROBE_LIMIT && node > 0
        invariant i <= TAIL_PROBE_LIMIT && 0 <= node == n - i && timers == old(timers)
        invariant node < n ==> Compare(timers[node].due, due) < 0
      {
        if Compare(timers[node - 1].due, timer.due) >= 0 {
          PlaceBehind(timers, due, node);
          Place(node, timer);
          return;
        }
        i, node := i + 1, node - 1;
      }
      node := 0;
      while node < n
        invariant 0 <= node <= n && timers == old(timers)
        invariant node > 0 ==> Compare(timer.due, timers[node - 1].due) < 0
      {
        if Compare(timer.due, timers[node].due) >= 0 {
          PlaceBefore(timers, due, node);
          Place(node, timer);
          return;
        }
        node := node + 1;
      }
      assert false;
    }

    /** Takes the timers that are due off the list, in due order. */
    method Schedule(now: Time) returns (ready: seq<Timer>)
      requires Sorted(timers) && Normal(now)
      modifies this
      ensures ready + timers == old(timers) && Sorted(timers)
      ensures forall t :: t in ready ==> Nanos(t.due) <= Nanos(now)
      ensures forall t :: t in timers ==> Nanos(t.due) > Nanos(now)
    {
      ready := [];
      while |timers| > 0 && Compare(timers[0].due, now) >= 0
        invariant ready + timers == old(timers) && Sorted(timers)
        invariant forall t :: t in ready ==> Nanos(t.due) <= Nanos(now)
        decreases |timers|
      {
        CompareOrders(timers[0].due, now);
        ready := ready + [timers[0]];
        timers := timers[1..];
      }
      forall t | t in timers ensures Nanos(t.due) > Nanos(now) {
        var i :| 0 <= i < |timers| && timers[i] == t;
        CompareOrders(timers[0].due, t.due);
        CompareOrders(timers[0].due, now);
      }
    }
  }
}
