/** What the calls on protocol objects achieve: a lock is given exactly when it is free, an attached object ends in
    its slot, a detached slot ends empty, a close starts as soon as its task sees no lock, and nobody gets stuck. */
module ProtocolCalls {
  import opened Options
  import opened ProtocolLocks

  /** No activity holds this lock of the object. */
  ghost predicate Free(s: State, p: Pid, k: Kind) {
    forall u: Tid :: !HoldsFlag(PcOf(s, u), p, k)
  }

  lemma FreeMeansUnset(s: State, p: Pid, k: Kind)
    requires Inv(s)
    ensures Free(s, p, k) <==> (p, k) !in s.flags
  {
    if (p, k) in s.flags {
      var u := s.flags[(p, k)];
      assert InvAt(s, u, 0, p, k);
      assert HoldsFlag(PcOf(s, u), p, k);
    } else {
      forall u: Tid ensures !HoldsFlag(PcOf(s, u), p, k) {
        assert InvAt(s, u, 0, p, k);
      }
    }
  }

  // ---------------------------------------------------------------------------------------------
  // The deferred close

  /** The task of a deferred close starts `on_close` if and only if no activity holds a lock of the object; else it
      goes back to the queue. */
  lemma CheckClosesIff(states: seq<State>, moves: seq<(Tid, Action)>, i: nat, t: Tid, p: Pid)
    requires IsRun(states, moves) && i < |moves| && moves[i] == (t, Check) && Carries(PcOf(states[i], t), p)
    ensures states[i].closes[p] == 0
    ensures PcOf(states[i + 1], t) == if forall k: Kind :: Free(states[i], p, k) then Closing(p) else Pushing(p)
    ensures states[i + 1].closes[p] == if forall k: Kind :: Free(states[i], p, k) then 1 else 0
  {
    RunKeeps(states, moves, i);
    var s := states[i];
    assert Next(s, t, Check, states[i + 1]);
    assert InvAt(s, t, 0, p, TaskLock);
    FreeMeansUnset(s, p, TaskLock);
    FreeMeansUnset(s, p, WriteLock);
    FreeMeansUnset(s, p, StateLock);
    if Flagged(s, p) {
      assert exists k: Kind :: !Free(s, p, k);
    } else {
      forall k: Kind ensures Free(s, p, k) {
        match k case TaskLock => case WriteLock => case StateLock =>
      }
    }
  }

  // ---------------------------------------------------------------------------------------------
  // What others do while an activity is inside a call

  lemma LockingKeepsPc(s: State, u: Tid, a: Action, s': State, t: Tid)
    requires LockStep(s, u, a, s') && u != t
    ensures PcOf(s', t) == PcOf(s, t)
  {
  }

  lemma AttachingKeepsPc(s: State, u: Tid, a: Action, s': State, t: Tid)
    requires AttachStep(s, u, a, s') && u != t
    ensures PcOf(s', t) == PcOf(s, t)
  {
  }

  lemma DetachingKeepsPc(s: State, u: Tid, a: Action, s': State, t: Tid)
    requires DetachStep(s, u, a, s') && u != t
    ensures PcOf(s', t) == PcOf(s, t)
  {
  }

  lemma ClosingKeepsPc(s: State, u: Tid, a: Action, s': State, t: Tid)
    requires (QueueStep(s, u, a, s') || CloseStep(s, u, a, s')) && u != t
    ensures PcOf(s', t) == PcOf(s, t)
  {
  }

  lemma OthersKeepPc(s: State, u: Tid, a: Action, s': State, t: Tid)
    requires Next(s, u, a, s') && u != t
    ensures PcOf(s', t) == PcOf(s, t)
  {
    hide LockStep, AttachStep, DetachStep, QueueStep, CloseStep, PcOf;
    if LockStep(s, u, a, s') { LockingKeepsPc(s, u, a, s', t); }
    else if AttachStep(s, u, a, s') { AttachingKeepsPc(s, u, a, s', t); }
    else if DetachStep(s, u, a, s') { DetachingKeepsPc(s, u, a, s', t); }
    else { ClosingKeepsPc(s, u, a, s', t); }
  }

  /** Only who holds the lock of a slot changes what is in it. */
  lemma SlotChanges(s: State, u: Tid, a: Action, s': State, fd: Fd)
    requires Next(s, u, a, s') && SlotOf(s', fd) != SlotOf(s, fd)
    ensures HoldsSlot(PcOf(s, u), fd) && (a.Swap? || a == ClearSlot)
  {
    if LockStep(s, u, a, s') || QueueStep(s, u, a, s') || CloseStep(s, u, a, s') {
      hide AttachStep, DetachStep;
    } else {
      hide LockStep, QueueStep, CloseStep;
    }
  }

  /** While an activity holds the lock of a slot, others change neither its place nor the slot. */
  lemma OthersLeaveSlot(s: State, u: Tid, a: Action, s': State, t: Tid, fd: Fd)
    requires Inv(s) && Next(s, u, a, s') && u != t && HoldsSlot(PcOf(s, t), fd)
    ensures PcOf(s', t) == PcOf(s, t) && SlotOf(s', fd) == SlotOf(s, fd)
  {
    OthersKeepPc(s, u, a, s', t);
    assert InvAt(s, t, fd, 0, TaskLock) && InvAt(s, u, fd, 0, TaskLock);
    if SlotOf(s', fd) != SlotOf(s, fd) {
      SlotChanges(s, u, a, s', fd);
    }
  }

  // ---------------------------------------------------------------------------------------------
  // protocol_try_lock

  predicate InTryLock(pc: Pc) {
    pc.AtSlot? || pc.Seen? || pc.Got? || pc.GiveUp?
  }

  /** Between two states of the run the activity came to the object's lock and found it free, or taken. */
  ghost predicate Asked(states: seq<State>, moves: seq<(Tid, Action)>, n: nat, i: nat, t: Tid, p: Pid, k: Kind, free: bool)
    requires IsRun(states, moves) && i <= |moves|
  {
    exists q :: n < q < i && moves[q] == (t, SetFlag) && Free(states[q], p, k) == free
  }

  /** How far a call that tries to lock has come, with the object it found. */
  ghost predicate TriesAt(states: seq<State>, moves: seq<(Tid, Action)>, n: nat, i: nat, t: Tid, fd: Fd, k: Kind, found: Option<Pid>)
    requires IsRun(states, moves) && i <= |moves|
  {
    && SlotOf(states[i], fd) == found
    && match PcOf(states[i], t)
       case AtSlot(f, k') => f == fd && k' == k
       case Seen(f, k', p) => f == fd && k' == k && found == Some(p)
       case Got(f, k', p) => f == fd && k' == k && found == Some(p) && Asked(states, moves, n, i, t, p, k, true)
       case GiveUp(f) => f == fd && found.Some? && Asked(states, moves, n, i, t, found.value, k, false)
       case _ => false
  }

  lemma AskedStays(states: seq<State>, moves: seq<(Tid, Action)>, n: nat, i: nat, t: Tid, p: Pid, k: Kind, free: bool)
    requires IsRun(states, moves) && i < |moves| && Asked(states, moves, n, i, t, p, k, free)
    ensures Asked(states, moves, n, i + 1, t, p, k, free)
  {
  }

  lemma TriesOn(states: seq<State>, moves: seq<(Tid, Action)>, n: nat, i: nat, t: Tid, fd: Fd, k: Kind, found: Option<Pid>)
    requires IsRun(states, moves) && n < i < |moves| && TriesAt(states, moves, n, i, t, fd, k, found)
    requires InTryLock(PcOf(states[i + 1], t))
    ensures TriesAt(states, moves, n, i + 1, t, fd, k, found)
  {
    RunKeeps(states, moves, i);
    var s, s', u, a := states[i], states[i + 1], moves[i].0, moves[i].1;
    assert Next(s, u, a, s');
    hide IsRun, Inv;
    if u != t {
      OthersLeaveSlot(s, u, a, s', t, fd);
      if PcOf(s, t).Got? {
        AskedStays(states, moves, n, i, t, found.value, k, true);
      } else if PcOf(s, t).GiveUp? {
        AskedStays(states, moves, n, i, t, found.value, k, false);
      }
    } else if PcOf(s, t).Seen? {
      FreeMeansUnset(s, PcOf(s, t).pr, k);
      hide Free;
      assert moves[i] == (t, SetFlag);
      assert Asked(states, moves, n, i + 1, t, found.value, k, Free(states[i], found.value, k));
    } else {
      assert PcOf(s, t).AtSlot?;
    }
  }

  lemma {:induction false} TriesAlong(states: seq<State>, moves: seq<(Tid, Action)>, n: nat, i: nat, t: Tid, fd: Fd, k: Kind)
    requires IsRun(states, moves) && n < i <= |moves| && moves[n] == (t, TryLock(fd, k))
    requires forall j :: n < j <= i ==> InTryLock(PcOf(states[j], t))
    ensures TriesAt(states, moves, n, i, t, fd, k, SlotOf(states[n + 1], fd))
  {
    if i == n + 1 {
      assert Next(states[n], t, TryLock(fd, k), states[n + 1]);
    } else {
      TriesAlong(states, moves, n, i - 1, t, fd, k);
      hide IsRun;
      TriesOn(states, moves, n, i - 1, t, fd, k, SlotOf(states[n + 1], fd));
    }
  }

  /** A call that tries to lock the protocol of a slot, and gets as far as the slot's lock, runs its callback on
      the object that it found in the slot, which is there all the time; it gives up exactly when the slot is empty
      or when it came to that object's lock while another activity held it. */
  lemma LockedIff(states: seq<State>, moves: seq<(Tid, Action)>, n: nat, j: nat, t: Tid, fd: Fd, k: Kind)
    requires IsRun(states, moves) && n < j < |moves| && moves[n] == (t, TryLock(fd, k))
    requires forall i :: n < i <= j ==> InTryLock(PcOf(states[i], t))
    requires !InTryLock(PcOf(states[j + 1], t))
    ensures SlotOf(states[j], fd) == SlotOf(states[n + 1], fd)
    ensures SlotOf(states[j], fd) == None ==> PcOf(states[j + 1], t) == Idle
    ensures SlotOf(states[j], fd).Some? ==>
      var p := SlotOf(states[j], fd).value;
      || (PcOf(states[j + 1], t) == Running(k, p) && Asked(states, moves, n, j, t, p, k, true))
      || (PcOf(states[j + 1], t) == Idle && Asked(states, moves, n, j, t, p, k, false))
  {
    TriesAlong(states, moves, n, j, t, fd, k);
    var s, s', u, a := states[j], states[j + 1], moves[j].0, moves[j].1;
    assert Next(s, u, a, s');
    hide IsRun;
    if u != t {
      OthersKeepPc(s, u, a, s', t);
    }
  }

  /** Trying gives up at once exactly when another activity holds the lock of the slot. */
  lemma TriesIff(states: seq<State>, moves: seq<(Tid, Action)>, n: nat, t: Tid, fd: Fd, k: Kind)
    requires IsRun(states, moves) && n < |moves| && moves[n] == (t, TryLock(fd, k))
    ensures InTryLock(PcOf(states[n + 1], t)) <==> forall u: Tid :: !HoldsSlot(PcOf(states[n], u), fd)
  {
    RunKeeps(states, moves, n);
    var s := states[n];
    assert Next(s, t, TryLock(fd, k), states[n + 1]);
    if fd in s.slotLocks {
      var u := s.slotLocks[fd];
      assert InvAt(s, u, fd, 0, TaskLock);
      assert HoldsSlot(PcOf(s, u), fd);
    } else {
      forall u: Tid ensures !HoldsSlot(PcOf(s, u), fd) {
        assert InvAt(s, u, fd, 0, TaskLock);
      }
    }
  }

  // ---------------------------------------------------------------------------------------------
  // fio_attach and the detaching of a slot

  predicate InAttach(pc: Pc, fd: Fd, new': Option<Pid>) {
    pc == WaitAttach(fd, new') || pc == HasAttach(fd, new')
  }

  lemma AttachesAtFirst(s: State, t: Tid, fd: Fd, new': Option<Pid>, s': State)
    requires Next(s, t, Attach(fd, new', true), s')
    ensures InAttach(PcOf(s', t), fd, new')
  {
  }

  lemma AttachesOn(s: State, t: Tid, a: Action, s': State, fd: Fd, new': Option<Pid>)
    requires Next(s, t, a, s') && InAttach(PcOf(s, t), fd, new') && !a.Swap?
    ensures InAttach(PcOf(s', t), fd, new')
  {
  }

  lemma {:induction false} AttachAlong(states: seq<State>, moves: seq<(Tid, Action)>, n: nat, i: nat, t: Tid, fd: Fd, new': Option<Pid>)
    requires IsRun(states, moves) && n < i <= |moves| && moves[n] == (t, Attach(fd, new', true))
    requires forall j :: n < j < i ==> !(moves[j].0 == t && moves[j].1.Swap?)
    ensures InAttach(PcOf(states[i], t), fd, new')
  {
    hide Next, InAttach;
    var s, u, a := states[i - 1], moves[i - 1].0, moves[i - 1].1;
    assert Next(s, u, a, states[i]);
    if i == n + 1 {
      AttachesAtFirst(s, t, fd, new', states[i]);
    } else {
      AttachAlong(states, moves, n, i - 1, t, fd, new');
      if u == t {
        AttachesOn(s, t, a, states[i], fd, new');
      } else {
        OthersKeepPc(s, u, a, states[i], t);
      }
    }
  }

  /** Attaching to a valid connection puts the object into its slot and takes the one that was there to its close;
      if the connection has gone in the meantime, or was gone at once, the object itself goes to its close. */
  lemma AttachedIff(states: seq<State>, moves: seq<(Tid, Action)>, n: nat, j: nat, t: Tid, fd: Fd, new': Option<Pid>, valid: bool)
    requires IsRun(states, moves) && n < j < |moves| && moves[n] == (t, Attach(fd, new', true)) && moves[j] == (t, Swap(valid))
    requires forall i :: n < i < j ==> !(moves[i].0 == t && moves[i].1.Swap?)
    ensures valid ==> SlotOf(states[j + 1], fd) == new' && PcOf(states[j + 1], t) == Swapped(fd, SlotOf(states[j], fd))
    ensures !valid ==> SlotOf(states[j + 1], fd) == SlotOf(states[j], fd)
    ensures !valid ==> PcOf(states[j + 1], t) == if new' == None then Idle else Pushing(new'.value)
  {
    AttachAlong(states, moves, n, j, t, fd, new');
    assert Next(states[j], t, Swap(valid), states[j + 1]);
  }

  lemma RejectedAtOnce(states: seq<State>, moves: seq<(Tid, Action)>, n: nat, t: Tid, fd: Fd, p: Pid)
    requires IsRun(states, moves) && n < |moves| && moves[n] == (t, Attach(fd, Some(p), false))
    ensures PcOf(states[n + 1], t) == Pushing(p) && states[n + 1].slots == states[n].slots
  {
    assert Next(states[n], t, Attach(fd, Some(p), false), states[n + 1]);
  }

  predicate InDetach(pc: Pc) {
    pc.HasClear? || pc.Cleared? || pc.ClearDone?
  }

  /** How far a detach has come, with the object that was in the slot. */
  ghost predicate ClearsAt(s: State, t: Tid, fd: Fd, was: Option<Pid>) {
    match PcOf(s, t)
    case HasClear(f) => f == fd && SlotOf(s, fd) == was
    case Cleared(f, o) => f == fd && o == was && SlotOf(s, fd) == None
    case ClearDone(f) => f == fd && SlotOf(s, fd) == None
    case _ => false
  }

  lemma ClearsOn(s: State, u: Tid, a: Action, s': State, t: Tid, fd: Fd, was: Option<Pid>)
    requires Inv(s) && Next(s, u, a, s') && ClearsAt(s, t, fd, was) && InDetach(PcOf(s', t))
    ensures ClearsAt(s', t, fd, was)
  {
    if u != t {
      OthersLeaveSlot(s, u, a, s', t, fd);
    }
  }

  lemma ClearsAtFirst(s: State, t: Tid, fd: Fd, s': State)
    requires Next(s, t, Detach(fd), s')
    ensures ClearsAt(s', t, fd, SlotOf(s', fd))
  {
  }

  lemma {:induction false} ClearsAlong(states: seq<State>, moves: seq<(Tid, Action)>, n: nat, i: nat, t: Tid, fd: Fd)
    requires IsRun(states, moves) && n < i <= |moves| && moves[n] == (t, Detach(fd))
    requires forall j :: n < j <= i ==> InDetach(PcOf(states[j], t))
    ensures ClearsAt(states[i], t, fd, SlotOf(states[n + 1], fd))
  {
    hide Next, Inv, ClearsAt;
    assert Next(states[i - 1], moves[i - 1].0, moves[i - 1].1, states[i]);
    if i == n + 1 {
      ClearsAtFirst(states[n], t, fd, states[i]);
    } else {
      RunKeeps(states, moves, i - 1);
      ClearsAlong(states, moves, n, i - 1, t, fd);
      ClearsOn(states[i - 1], moves[i - 1].0, moves[i - 1].1, states[i], t, fd, SlotOf(states[n + 1], fd));
    }
  }

  /** A detach leaves its slot empty, and the activity on its own. */
  lemma DetachedIsEmpty(states: seq<State>, moves: seq<(Tid, Action)>, n: nat, j: nat, t: Tid, fd: Fd)
    requires IsRun(states, moves) && n < j < |moves| && moves[n] == (t, Detach(fd))
    requires forall i :: n < i <= j ==> InDetach(PcOf(states[i], t))
    requires !InDetach(PcOf(states[j + 1], t))
    ensures SlotOf(states[j + 1], fd) == None && PcOf(states[j + 1], t) == Idle
  {
    ClearsAlong(states, moves, n, j, t, fd);
    assert Next(states[j], moves[j].0, moves[j].1, states[j + 1]);
    if moves[j].0 != t {
      OthersKeepPc(states[j], moves[j].0, moves[j].1, states[j + 1], t);
    }
  }

  // ---------------------------------------------------------------------------------------------
  // Nobody gets stuck

  /** The activity can take a step that gets it on. */
  ghost predicate Moves(s: State, t: Tid) {
    exists a: Action, s': State :: Next(s, t, a, s') && PcOf(s', t) != PcOf(s, t)
  }

  lemma Can(s: State, t: Tid, a: Action, s': State)
    requires Next(s, t, a, s') && PcOf(s', t) != PcOf(s, t)
    ensures Moves(s, t)
  {
  }

  lemma LockMoves(s: State, t: Tid)
    requires PcOf(s, t).AtSlot? || PcOf(s, t).Seen? || PcOf(s, t).Got? || PcOf(s, t).GiveUp? || PcOf(s, t).Running?
    ensures Moves(s, t)
  {
    hide Moves;
    var pc := PcOf(s, t);
    match pc
    case AtSlot(fd, kind) =>
      if SlotOf(s, fd) == None {
        Can(s, t, ReadSlot, s.(slotLocks := s.slotLocks - {fd}, pcs := s.pcs[t := Idle]));
      } else {
        Can(s, t, ReadSlot, s.(pcs := s.pcs[t := Seen(fd, kind, SlotOf(s, fd).value)]));
      }
    case Seen(fd, kind, p) =>
      if (p, kind) in s.flags {
        Can(s, t, SetFlag, s.(pcs := s.pcs[t := GiveUp(fd)]));
      } else {
        Can(s, t, SetFlag, s.(flags := s.flags[(p, kind) := t], pcs := s.pcs[t := Got(fd, kind, p)]));
      }
    case Got(fd, kind, p) =>
      Can(s, t, LeaveSlot, s.(slotLocks := s.slotLocks - {fd}, pcs := s.pcs[t := Running(kind, p)]));
    case GiveUp(fd) =>
      Can(s, t, LeaveSlot, s.(slotLocks := s.slotLocks - {fd}, pcs := s.pcs[t := Idle]));
    case Running(kind, p) =>
      Can(s, t, Unlock, s.(flags := s.flags - {(p, kind)}, pcs := s.pcs[t := Idle]));
  }

  lemma AttachMoves(s: State, t: Tid)
    requires (PcOf(s, t).WaitAttach? && PcOf(s, t).fd !in s.slotLocks) || PcOf(s, t).HasAttach? || PcOf(s, t).Swapped?
    ensures Moves(s, t)
  {
    hide Moves;
    var pc := PcOf(s, t);
    match pc
    case WaitAttach(fd, new') =>
      Can(s, t, LockSlot, s.(slotLocks := s.slotLocks[fd := t], pcs := s.pcs[t := HasAttach(fd, new')]));
    case HasAttach(fd, new') =>
      var pc' := if new'.Some? then Pushing(new'.value) else Idle;
      Can(s, t, Swap(false), s.(slotLocks := s.slotLocks - {fd}, pcs := s.pcs[t := pc']));
    case Swapped(fd, old') =>
      var pc' := if old'.Some? then Pushing(old'.value) else Idle;
      Can(s, t, LeaveSwap, s.(slotLocks := s.slotLocks - {fd}, pcs := s.pcs[t := pc']));
  }

  lemma DetachMoves(s: State, t: Tid)
    requires InDetach(PcOf(s, t))
    ensures Moves(s, t)
  {
    hide Moves;
    var pc := PcOf(s, t);
    match pc
    case HasClear(fd) =>
      var old' := SlotOf(s, fd);
      Can(s, t, ClearSlot, s.(slots := s.slots - {fd}, places := SetPlace(s.places, old', With(t)), pcs := s.pcs[t := Cleared(fd, old')]));
    case Cleared(fd, old') =>
      Can(s, t, DeferClose,
          s.(pending := Push(s.pending, old'), places := SetPlace(s.places, old', Queued), pcs := s.pcs[t := ClearDone(fd)]));
    case ClearDone(fd) =>
      Can(s, t, LeaveClear, s.(slotLocks := s.slotLocks - {fd}, pcs := s.pcs[t := Idle]));
  }

  lemma CloseMoves(s: State, t: Tid)
    requires PcOf(s, t).Pushing? || PcOf(s, t).Checking? || PcOf(s, t).Closing?
    ensures Moves(s, t)
  {
    hide Moves;
    var pc := PcOf(s, t);
    match pc
    case Pushing(p) =>
      Can(s, t, PushClose, s.(pending := s.pending + multiset{p}, places := s.places[p := Queued], pcs := s.pcs[t := Idle]));
    case Checking(p) =>
      if Flagged(s, p) {
        Can(s, t, Check, s.(pcs := s.pcs[t := Pushing(p)]));
      } else {
        Can(s, t, Check, s.(closes := s.closes + multiset{p}, pcs := s.pcs[t := Closing(p)]));
      }
    case Closing(p) =>
      Can(s, t, EndClose, s.(places := s.places[p := Done], pcs := s.pcs[t := Idle]));
  }

  lemma MovesUnlessWaiting(s: State, t: Tid)
    requires PcOf(s, t) != Idle && (PcOf(s, t).WaitAttach? ==> PcOf(s, t).fd !in s.slotLocks)
    ensures Moves(s, t)
  {
    hide Moves;
    var pc := PcOf(s, t);
    if pc.WaitAttach? || pc.HasAttach? || pc.Swapped? { AttachMoves(s, t); }
    else if InDetach(pc) { DetachMoves(s, t); }
    else if pc.Pushing? || pc.Checking? || pc.Closing? { CloseMoves(s, t); }
    else { LockMoves(s, t); }
  }

  /** In every reachable state an activity that is inside a call can go on, or it waits for the lock of a slot in
      `fio_attach` and the activity that holds this lock can go on. */
  lemma NeverStuck(states: seq<State>, moves: seq<(Tid, Action)>, i: nat, t: Tid)
    requires IsRun(states, moves) && i <= |moves| && PcOf(states[i], t) != Idle
    ensures Moves(states[i], t)
      || (PcOf(states[i], t).WaitAttach? && exists u: Tid :: HoldsSlot(PcOf(states[i], u), PcOf(states[i], t).fd) && Moves(states[i], u))
  {
    RunKeeps(states, moves, i);
    var s := states[i];
    hide IsRun, Moves;
    if PcOf(s, t).WaitAttach? && PcOf(s, t).fd in s.slotLocks {
      var fd := PcOf(s, t).fd;
      var u := s.slotLocks[fd];
      assert InvAt(s, u, fd, 0, TaskLock);
      MovesUnlessWaiting(s, u);
    } else {
      MovesUnlessWaiting(s, t);
    }
  }

  /** The step is possible, and the activity goes on as `pc`. */
  ghost predicate CanStart(s: State, t: Tid, a: Action, pc: Pc) {
    exists s': State :: Next(s, t, a, s') && PcOf(s', t) == pc
  }

  lemma Starts(s: State, t: Tid, a: Action, s': State)
    requires Next(s, t, a, s')
    ensures CanStart(s, t, a, PcOf(s', t))
  {
  }

  /** An activity that is idle can lock or detach a slot whose lock is free, attach an object that is new, and take any
      close from the queue. */
  lemma CallsCanStart(s: State, t: Tid)
    requires PcOf(s, t) == Idle
    ensures forall fd: Fd, k: Kind | fd !in s.slotLocks :: CanStart(s, t, TryLock(fd, k), AtSlot(fd, k))
    ensures forall fd: Fd | fd !in s.slotLocks :: CanStart(s, t, Detach(fd), HasClear(fd))
    ensures forall fd: Fd, p: Pid | p !in s.attached :: CanStart(s, t, Attach(fd, Some(p), true), WaitAttach(fd, Some(p)))
    ensures forall p: Pid | p in s.pending :: CanStart(s, t, TakeClose(p), Checking(p))
  {
    hide CanStart;
    forall fd: Fd, k: Kind | fd !in s.slotLocks ensures CanStart(s, t, TryLock(fd, k), AtSlot(fd, k)) {
      Starts(s, t, TryLock(fd, k), s.(slotLocks := s.slotLocks[fd := t], pcs := s.pcs[t := AtSlot(fd, k)]));
    }
    forall fd: Fd | fd !in s.slotLocks ensures CanStart(s, t, Detach(fd), HasClear(fd)) {
      Starts(s, t, Detach(fd), s.(slotLocks := s.slotLocks[fd := t], pcs := s.pcs[t := HasClear(fd)]));
    }
    forall fd: Fd, p: Pid | p !in s.attached ensures CanStart(s, t, Attach(fd, Some(p), true), WaitAttach(fd, Some(p))) {
      var s' := s.(attached := s.attached + {p}, flags := NoFlags(s.flags, p), places := SetPlace(s.places, Some(p), With(t)),
                  pcs := s.pcs[t := WaitAttach(fd, Some(p))]);
      Starts(s, t, Attach(fd, Some(p), true), s');
    }
    forall p: Pid | p in s.pending ensures CanStart(s, t, TakeClose(p), Checking(p)) {
      var s' := s.(pending := s.pending - multiset{p}, places := s.places[p := With(t)], pcs := s.pcs[t := Checking(p)]);
      Starts(s, t, TakeClose(p), s');
    }
  }
}
