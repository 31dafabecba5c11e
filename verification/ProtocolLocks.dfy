/** Protocol objects, their three locks, the lock of the slot that holds them and the deferred
    `on_close`, as steps that any number of activities interleave. An activity is one call of a
    library function; a call made from within a callback is an activity of its own. */
module ProtocolLocks {
  import opened Options

  type Pid = nat   // a protocol object
  type Fd = nat    // a slot of the connection table
  type Tid = nat   // an activity

  datatype Kind = TaskLock | WriteLock | StateLock

  /** Where an activity is. */
  datatype Pc =
    | Idle
      // protocol_try_lock: slot lock taken; object read; its flag set or found set; slot lock released
    | AtSlot(fd: Fd, kind: Kind)
    | Seen(fd: Fd, kind: Kind, pr: Pid)
    | Got(fd: Fd, kind: Kind, pr: Pid)
    | GiveUp(fd: Fd)
    | Running(kind: Kind, pr: Pid)
      // fio_attach: waits for the slot lock; has it; has swapped the objects
    | WaitAttach(fd: Fd, new': Option<Pid>)
    | HasAttach(fd: Fd, new': Option<Pid>)
    | Swapped(fd: Fd, old': Option<Pid>)
      // a detach under the slot lock (force close, accept, fd2uuid): has the lock; slot cleared; close deferred
    | HasClear(fd: Fd)
    | Cleared(fd: Fd, old': Option<Pid>)
    | ClearDone(fd: Fd)
      // on the way to the task queue with a deferred on_close
    | Pushing(pr: Pid)
      // deferred_on_close: taken from the queue; on_close runs
    | Checking(pr: Pid)
    | Closing(pr: Pid)

  /** Where a protocol object is; a history variable. */
  datatype Place = New | InSlot(fd: Fd) | With(t: Tid) | Queued | Done

  datatype State = State(
    pcs: map<Tid, Pc>,
    slots: map<Fd, Pid>,
    slotLocks: map<Fd, Tid>,
    flags: map<(Pid, Kind), Tid>,  // the lock bits that are set, and by which activity
    pending: multiset<Pid>,        // deferred on_close tasks in the queue
    closes: multiset<Pid>,         // how often on_close was started
    attached: set<Pid>,            // objects handed to fio_attach
    places: map<Pid, Place>)

  function PcOf(s: State, t: Tid): Pc {
    if t in s.pcs then s.pcs[t] else Idle
  }

  function SlotOf(s: State, fd: Fd): Option<Pid> {
    if fd in s.slots then Some(s.slots[fd]) else None
  }

  function PlaceOf(s: State, p: Pid): Place {
    if p in s.places then s.places[p] else New
  }

  function SetSlot(slots: map<Fd, Pid>, fd: Fd, p: Option<Pid>): map<Fd, Pid> {
    match p case None => slots - {fd} case Some(x) => slots[fd := x]
  }

  function SetPlace(places: map<Pid, Place>, p: Option<Pid>, at: Place): map<Pid, Place> {
    match p case None => places case Some(x) => places[x := at]
  }

  function Push(pending: multiset<Pid>, p: Option<Pid>): multiset<Pid> {
    match p case None => pending case Some(x) => pending + multiset{x}
  }

  predicate Flagged(s: State, p: Pid) {
    (p, TaskLock) in s.flags || (p, WriteLock) in s.flags || (p, StateLock) in s.flags
  }

  function NoFlags(flags: map<(Pid, Kind), Tid>, p: Pid): map<(Pid, Kind), Tid> {
    flags - {(p, TaskLock), (p, WriteLock), (p, StateLock)}
  }

  // ---------------------------------------------------------------------------------------------
  // The steps

  datatype Action =
    | TryLock(fd: Fd, kind: Kind)     // takes the slot lock, or gives up at once
    | ReadSlot | SetFlag | LeaveSlot | Unlock
    | Attach(fd: Fd, new': Option<Pid>, valid: bool) | LockSlot | Swap(valid: bool) | LeaveSwap
    | Detach(fd: Fd) | ClearSlot | DeferClose | LeaveClear
    | PushClose
    | TakeClose(pr: Pid) | Check | EndClose

  ghost predicate Init(s: State) {
    && s.pcs == map[] && s.slots == map[] && s.slotLocks == map[] && s.flags == map[]
    && s.pending == multiset{} && s.closes == multiset{} && s.attached == {} && s.places == map[]
  }

  /** Taking a protocol's lock through its slot, and releasing it after the callback. */
  ghost predicate LockStep(s: State, t: Tid, a: Action, s': State) {
    var pc := PcOf(s, t);
    match a
    case TryLock(fd, kind) =>
      pc.Idle? &&
      if fd in s.slotLocks then s' == s
      else s' == s.(slotLocks := s.slotLocks[fd := t], pcs := s.pcs[t := AtSlot(fd, kind)])
    case ReadSlot =>
      pc.AtSlot? &&
      if SlotOf(s, pc.fd) == None then s' == s.(slotLocks := s.slotLocks - {pc.fd}, pcs := s.pcs[t := Idle])
      else s' == s.(pcs := s.pcs[t := Seen(pc.fd, pc.kind, SlotOf(s, pc.fd).value)])
    case SetFlag =>
      pc.Seen? &&
      if (pc.pr, pc.kind) in s.flags then s' == s.(pcs := s.pcs[t := GiveUp(pc.fd)])
      else s' == s.(flags := s.flags[(pc.pr, pc.kind) := t], pcs := s.pcs[t := Got(pc.fd, pc.kind, pc.pr)])
    case LeaveSlot =>
      (pc.Got? || pc.GiveUp?) &&
      s' == s.(slotLocks := s.slotLocks - {pc.fd}, pcs := s.pcs[t := if pc.Got? then Running(pc.kind, pc.pr) else Idle])
    case Unlock =>
      pc.Running? && s' == s.(flags := s.flags - {(pc.pr, pc.kind)}, pcs := s.pcs[t := Idle])
    case _ => false
  }

  /** Attaching an object; an invalid uuid sends it straight to its close. */
  ghost predicate AttachStep(s: State, t: Tid, a: Action, s': State) {
    var pc := PcOf(s, t);
    match a
    case Attach(fd, new', valid) =>
      pc.Idle? && (new'.Some? ==> new'.value !in s.attached) &&
      s' == s.(attached := if new'.Some? then s.attached + {new'.value} else s.attached,
               flags := if new'.Some? then NoFlags(s.flags, new'.value) else s.flags,
               places := SetPlace(s.places, new', With(t)),
               pcs := s.pcs[t := if valid then WaitAttach(fd, new') else if new'.Some? then Pushing(new'.value) else Idle])
    case LockSlot =>
      pc.WaitAttach? && pc.fd !in s.slotLocks &&
      s' == s.(slotLocks := s.slotLocks[pc.fd := t], pcs := s.pcs[t := HasAttach(pc.fd, pc.new')])
    case Swap(valid) =>
      pc.HasAttach? &&
      if valid then
        var old' := SlotOf(s, pc.fd);
        s' == s.(slots := SetSlot(s.slots, pc.fd, pc.new'), pcs := s.pcs[t := Swapped(pc.fd, old')],
                 places := SetPlace(SetPlace(s.places, old', With(t)), pc.new', InSlot(pc.fd)))
      else
        s' == s.(slotLocks := s.slotLocks - {pc.fd},
                 pcs := s.pcs[t := if pc.new'.Some? then Pushing(pc.new'.value) else Idle])
    case LeaveSwap =>
      pc.Swapped? &&
      s' == s.(slotLocks := s.slotLocks - {pc.fd}, pcs := s.pcs[t := if pc.old'.Some? then Pushing(pc.old'.value) else Idle])
    case _ => false
  }

  /** Clearing a slot under its lock. */
  ghost predicate DetachStep(s: State, t: Tid, a: Action, s': State) {
    var pc := PcOf(s, t);
    match a
    case Detach(fd) =>
      pc.Idle? && fd !in s.slotLocks &&
      s' == s.(slotLocks := s.slotLocks[fd := t], pcs := s.pcs[t := HasClear(fd)])
    case ClearSlot =>
      pc.HasClear? &&
      var old' := SlotOf(s, pc.fd);
      s' == s.(slots := s.slots - {pc.fd}, places := SetPlace(s.places, old', With(t)), pcs := s.pcs[t := Cleared(pc.fd, old')])
    case DeferClose =>
      pc.Cleared? &&
      s' == s.(pending := Push(s.pending, pc.old'), places := SetPlace(s.places, pc.old', Queued), pcs := s.pcs[t := ClearDone(pc.fd)])
    case LeaveClear =>
      pc.ClearDone? && s' == s.(slotLocks := s.slotLocks - {pc.fd}, pcs := s.pcs[t := Idle])
    case _ => false
  }

  /** Deferring a close and taking the task out of the queue. */
  ghost predicate QueueStep(s: State, t: Tid, a: Action, s': State) {
    var pc := PcOf(s, t);
    match a
    case PushClose =>
      pc.Pushing? &&
      s' == s.(pending := s.pending + multiset{pc.pr}, places := s.places[pc.pr := Queued], pcs := s.pcs[t := Idle])
    case TakeClose(p) =>
      pc.Idle? && p in s.pending &&
      s' == s.(pending := s.pending - multiset{p}, places := s.places[p := With(t)], pcs := s.pcs[t := Checking(p)])
    case _ => false
  }

  /** The deferred close: it goes back to the queue while any lock of the object is held. */
  ghost predicate CloseStep(s: State, t: Tid, a: Action, s': State) {
    var pc := PcOf(s, t);
    match a
    case Check =>
      pc.Checking? &&
      if Flagged(s, pc.pr) then s' == s.(pcs := s.pcs[t := Pushing(pc.pr)])
      else s' == s.(closes := s.closes + multiset{pc.pr}, pcs := s.pcs[t := Closing(pc.pr)])
    case EndClose =>
      pc.Closing? && s' == s.(places := s.places[pc.pr := Done], pcs := s.pcs[t := Idle])
    case _ => false
  }

  ghost predicate Next(s: State, t: Tid, a: Action, s': State) {
    || LockStep(s, t, a, s') || AttachStep(s, t, a, s') || DetachStep(s, t, a, s')
    || QueueStep(s, t, a, s') || CloseStep(s, t, a, s')
  }

  // ---------------------------------------------------------------------------------------------
  // The invariant

  /** The activity holds the slot's lock. */
  predicate HoldsSlot(pc: Pc, fd: Fd) {
    match pc
    case AtSlot(f, _) => f == fd
    case Seen(f, _, _) => f == fd
    case Got(f, _, _) => f == fd
    case GiveUp(f) => f == fd
    case HasAttach(f, _) => f == fd
    case Swapped(f, _) => f == fd
    case HasClear(f) => f == fd
    case Cleared(f, _) => f == fd
    case ClearDone(f) => f == fd
    case _ => false
  }

  predicate HoldsFlag(pc: Pc, p: Pid, kind: Kind) {
    (pc.Got? && pc.pr == p && pc.kind == kind) || pc == Running(kind, p)
  }

  /** The object is in the activity's hands: on its way into a slot or to its close. */
  predicate Carries(pc: Pc, p: Pid) {
    match pc
    case WaitAttach(_, n) => n == Some(p)
    case HasAttach(_, n) => n == Some(p)
    case Swapped(_, o) => o == Some(p)
    case Cleared(_, o) => o == Some(p)
    case Pushing(q) => q == p
    case Checking(q) => q == p
    case Closing(q) => q == p
    case _ => false
  }

  ghost predicate CloseStarted(s: State, p: Pid) {
    PlaceOf(s, p) == Done || (PlaceOf(s, p).With? && PcOf(s, PlaceOf(s, p).t) == Closing(p))
  }

  /** A slot's lock is held by the activity inside its critical section. */
  ghost predicate SlotLockAt(s: State, u: Tid, fd: Fd) {
    HoldsSlot(PcOf(s, u), fd) <==> fd in s.slotLocks && s.slotLocks[fd] == u
  }

  /** An object that was read from its slot stays there until the slot's lock is released. */
  ghost predicate SeenAt(s: State, u: Tid) {
    PcOf(s, u).Seen? || PcOf(s, u).Got? ==> SlotOf(s, PcOf(s, u).fd) == Some(PcOf(s, u).pr)
  }

  /** A lock bit is set exactly while one activity is between taking and releasing that lock. */
  ghost predicate FlagAt(s: State, u: Tid, p: Pid, k: Kind) {
    HoldsFlag(PcOf(s, u), p, k) <==> (p, k) in s.flags && s.flags[(p, k)] == u
  }

  ghost predicate SlotAt(s: State, fd: Fd, p: Pid) {
    SlotOf(s, fd) == Some(p) <==> PlaceOf(s, p) == InSlot(fd)
  }

  ghost predicate CarriedAt(s: State, u: Tid, p: Pid) {
    Carries(PcOf(s, u), p) <==> PlaceOf(s, p) == With(u)
  }

  /** Queued tasks of an object; only an attached object has a place. */
  ghost predicate CountsAt(s: State, p: Pid) {
    && s.pending[p] == (if PlaceOf(s, p) == Queued then 1 else 0)
    && (p in s.attached <==> PlaceOf(s, p) != New)
  }

  /** Its started closes. */
  ghost predicate StartedAt(s: State, p: Pid) {
    s.closes[p] == if CloseStarted(s, p) then 1 else 0
  }

  /** No lock of an object is held before it is attached or once its close has started. */
  ghost predicate CalmAt(s: State, p: Pid) {
    CloseStarted(s, p) || PlaceOf(s, p) == New ==> !Flagged(s, p)
  }

  ghost predicate CloseAt(s: State, p: Pid) {
    CountsAt(s, p) && StartedAt(s, p) && CalmAt(s, p)
  }

  ghost predicate InvAt(s: State, u: Tid, fd: Fd, p: Pid, k: Kind) {
    SlotLockAt(s, u, fd) && SeenAt(s, u) && FlagAt(s, u, p, k) && SlotAt(s, fd, p) && CarriedAt(s, u, p) && CloseAt(s, p)
  }

  ghost predicate Inv(s: State) {
    forall u: Tid, fd: Fd, p: Pid, k: Kind :: InvAt(s, u, fd, p, k)
  }

  // ---------------------------------------------------------------------------------------------
  // Every step keeps it

  /** The slot an activity works on. */
  function FdOf(pc: Pc): Fd {
    match pc
    case Idle => 0
    case Running(_, _) => 0
    case Pushing(_) => 0
    case Checking(_) => 0
    case Closing(_) => 0
    case _ => pc.fd
  }

  /** What the invariant says about the activity that steps and about the point looked at. */
  ghost predicate Known(s: State, t: Tid, u: Tid, fd: Fd, p: Pid, k: Kind) {
    && InvAt(s, u, fd, p, k) && InvAt(s, t, fd, p, k)
    && InvAt(s, t, FdOf(PcOf(s, t)), p, k)
    && InvAt(s, u, FdOf(PcOf(s, u)), p, k) && InvAt(s, t, FdOf(PcOf(s, u)), p, k)
    && (PlaceOf(s, p).With? ==> CarriedAt(s, PlaceOf(s, p).t, p))
    && FlagAt(s, t, p, TaskLock) && FlagAt(s, t, p, WriteLock) && FlagAt(s, t, p, StateLock)
  }

  lemma LockKeepsSlotLock(s: State, t: Tid, a: Action, s': State, u: Tid, fd: Fd)
    requires LockStep(s, t, a, s') && SlotLockAt(s, u, fd) && SlotLockAt(s, t, fd) && SlotLockAt(s, t, FdOf(PcOf(s, t)))
    ensures SlotLockAt(s', u, fd)
  {
  }

  lemma LockKeepsSeen(s: State, t: Tid, a: Action, s': State, u: Tid)
    requires LockStep(s, t, a, s') && SeenAt(s, u) && SeenAt(s, t)
    requires SlotLockAt(s, u, FdOf(PcOf(s, u))) && SlotLockAt(s, t, FdOf(PcOf(s, u))) && SlotLockAt(s, t, FdOf(PcOf(s, t)))
    ensures SeenAt(s', u)
  {
  }

  lemma LockKeepsFlag(s: State, t: Tid, a: Action, s': State, u: Tid, p: Pid, k: Kind)
    requires LockStep(s, t, a, s') && FlagAt(s, u, p, k) && FlagAt(s, t, p, k)
    ensures FlagAt(s', u, p, k)
  {
  }

  lemma LockKeepsSlot(s: State, t: Tid, a: Action, s': State, fd: Fd, p: Pid)
    requires LockStep(s, t, a, s') && SlotAt(s, fd, p) && SlotAt(s, FdOf(PcOf(s, t)), p) && CarriedAt(s, t, p) && CountsAt(s, p)
    ensures SlotAt(s', fd, p)
  {
  }

  lemma LockKeepsCarried(s: State, t: Tid, a: Action, s': State, u: Tid, p: Pid)
    requires LockStep(s, t, a, s') && CarriedAt(s, u, p) && CarriedAt(s, t, p) && SlotAt(s, FdOf(PcOf(s, t)), p) && CountsAt(s, p)
    ensures CarriedAt(s', u, p)
  {
  }

  lemma LockKeepsCounts(s: State, t: Tid, a: Action, s': State, p: Pid)
    requires LockStep(s, t, a, s') && CountsAt(s, p) && CarriedAt(s, t, p) && SlotAt(s, FdOf(PcOf(s, t)), p)
    ensures CountsAt(s', p)
  {
  }

  lemma LockKeepsStarted(s: State, t: Tid, a: Action, s': State, p: Pid)
    requires LockStep(s, t, a, s') && CountsAt(s, p) && StartedAt(s, p) && CarriedAt(s, t, p) && SlotAt(s, FdOf(PcOf(s, t)), p)
    requires PlaceOf(s, p).With? ==> CarriedAt(s, PlaceOf(s, p).t, p)
    ensures StartedAt(s', p)
  {
  }

  lemma LockKeepsCalm(s: State, t: Tid, a: Action, s': State, p: Pid)
    requires LockStep(s, t, a, s') && CountsAt(s, p) && CalmAt(s, p) && CarriedAt(s, t, p) && SlotAt(s, FdOf(PcOf(s, t)), p)
    requires SeenAt(s, t) && (PlaceOf(s, p).With? ==> CarriedAt(s, PlaceOf(s, p).t, p))
    ensures CalmAt(s', p)
  {
  }

  lemma AttachKeepsSlotLock(s: State, t: Tid, a: Action, s': State, u: Tid, fd: Fd)
    requires AttachStep(s, t, a, s') && SlotLockAt(s, u, fd) && SlotLockAt(s, t, fd) && SlotLockAt(s, t, FdOf(PcOf(s, t)))
    ensures SlotLockAt(s', u, fd)
  {
  }

  lemma AttachKeepsSeen(s: State, t: Tid, a: Action, s': State, u: Tid)
    requires AttachStep(s, t, a, s') && SeenAt(s, u) && SeenAt(s, t)
    requires SlotLockAt(s, u, FdOf(PcOf(s, u))) && SlotLockAt(s, t, FdOf(PcOf(s, u))) && SlotLockAt(s, t, FdOf(PcOf(s, t)))
    ensures SeenAt(s', u)
  {
  }

  lemma AttachKeepsFlag(s: State, t: Tid, a: Action, s': State, u: Tid, p: Pid, k: Kind)
    requires AttachStep(s, t, a, s') && FlagAt(s, u, p, k) && FlagAt(s, t, p, k)
    requires p !in s.attached ==> !Flagged(s, p)
    ensures FlagAt(s', u, p, k)
  {
  }

  lemma AttachKeepsSlot(s: State, t: Tid, a: Action, s': State, fd: Fd, p: Pid)
    requires AttachStep(s, t, a, s') && SlotAt(s, fd, p) && SlotAt(s, FdOf(PcOf(s, t)), p) && CarriedAt(s, t, p) && CountsAt(s, p)
    ensures SlotAt(s', fd, p)
  {
  }

  lemma AttachKeepsCarried(s: State, t: Tid, a: Action, s': State, u: Tid, p: Pid)
    requires AttachStep(s, t, a, s') && CarriedAt(s, u, p) && CarriedAt(s, t, p) && SlotAt(s, FdOf(PcOf(s, t)), p) && CountsAt(s, p)
    ensures CarriedAt(s', u, p)
  {
  }

  lemma AttachKeepsCounts(s: State, t: Tid, a: Action, s': State, p: Pid)
    requires AttachStep(s, t, a, s') && CountsAt(s, p) && CarriedAt(s, t, p) && SlotAt(s, FdOf(PcOf(s, t)), p)
    ensures CountsAt(s', p)
  {
  }

  lemma AttachKeepsStarted(s: State, t: Tid, a: Action, s': State, p: Pid)
    requires AttachStep(s, t, a, s') && CountsAt(s, p) && StartedAt(s, p) && CarriedAt(s, t, p) && SlotAt(s, FdOf(PcOf(s, t)), p)
    requires PlaceOf(s, p).With? ==> CarriedAt(s, PlaceOf(s, p).t, p)
    ensures StartedAt(s', p)
  {
  }

  lemma AttachKeepsCalm(s: State, t: Tid, a: Action, s': State, p: Pid)
    requires AttachStep(s, t, a, s') && CountsAt(s, p) && CalmAt(s, p) && CarriedAt(s, t, p) && SlotAt(s, FdOf(PcOf(s, t)), p)
    requires SeenAt(s, t) && (PlaceOf(s, p).With? ==> CarriedAt(s, PlaceOf(s, p).t, p))
    ensures CalmAt(s', p)
  {
  }

  lemma DetachKeepsSlotLock(s: State, t: Tid, a: Action, s': State, u: Tid, fd: Fd)
    requires DetachStep(s, t, a, s') && SlotLockAt(s, u, fd) && SlotLockAt(s, t, fd) && SlotLockAt(s, t, FdOf(PcOf(s, t)))
    ensures SlotLockAt(s', u, fd)
  {
  }

  lemma DetachKeepsSeen(s: State, t: Tid, a: Action, s': State, u: Tid)
    requires DetachStep(s, t, a, s') && SeenAt(s, u) && SeenAt(s, t)
    requires SlotLockAt(s, u, FdOf(PcOf(s, u))) && SlotLockAt(s, t, FdOf(PcOf(s, u))) && SlotLockAt(s, t, FdOf(PcOf(s, t)))
    ensures SeenAt(s', u)
  {
  }

  lemma DetachKeepsFlag(s: State, t: Tid, a: Action, s': State, u: Tid, p: Pid, k: Kind)
    requires DetachStep(s, t, a, s') && FlagAt(s, u, p, k) && FlagAt(s, t, p, k)
    ensures FlagAt(s', u, p, k)
  {
  }

  lemma DetachKeepsSlot(s: State, t: Tid, a: Action, s': State, fd: Fd, p: Pid)
    requires DetachStep(s, t, a, s') && SlotAt(s, fd, p) && SlotAt(s, FdOf(PcOf(s, t)), p) && CarriedAt(s, t, p) && CountsAt(s, p)
    ensures SlotAt(s', fd, p)
  {
  }

  lemma DetachKeepsCarried(s: State, t: Tid, a: Action, s': State, u: Tid, p: Pid)
    requires DetachStep(s, t, a, s') && CarriedAt(s, u, p) && CarriedAt(s, t, p) && SlotAt(s, FdOf(PcOf(s, t)), p) && CountsAt(s, p)
    ensures CarriedAt(s', u, p)
  {
  }

  lemma DetachKeepsCounts(s: State, t: Tid, a: Action, s': State, p: Pid)
    requires DetachStep(s, t, a, s') && CountsAt(s, p) && CarriedAt(s, t, p) && SlotAt(s, FdOf(PcOf(s, t)), p)
    ensures CountsAt(s', p)
  {
  }

  lemma DetachKeepsStarted(s: State, t: Tid, a: Action, s': State, p: Pid)
    requires DetachStep(s, t, a, s') && CountsAt(s, p) && StartedAt(s, p) && CarriedAt(s, t, p) && SlotAt(s, FdOf(PcOf(s, t)), p)
    requires PlaceOf(s, p).With? ==> CarriedAt(s, PlaceOf(s, p).t, p)
    ensures StartedAt(s', p)
  {
  }

  lemma DetachKeepsCalm(s: State, t: Tid, a: Action, s': State, p: Pid)
    requires DetachStep(s, t, a, s') && CountsAt(s, p) && CalmAt(s, p) && CarriedAt(s, t, p) && SlotAt(s, FdOf(PcOf(s, t)), p)
    requires SeenAt(s, t) && (PlaceOf(s, p).With? ==> CarriedAt(s, PlaceOf(s, p).t, p))
    ensures CalmAt(s', p)
  {
  }

  lemma QueueKeepsSlotLock(s: State, t: Tid, a: Action, s': State, u: Tid, fd: Fd)
    requires QueueStep(s, t, a, s') && SlotLockAt(s, u, fd) && SlotLockAt(s, t, fd) && SlotLockAt(s, t, FdOf(PcOf(s, t)))
    ensures SlotLockAt(s', u, fd)
  {
  }

  lemma QueueKeepsSeen(s: State, t: Tid, a: Action, s': State, u: Tid)
    requires QueueStep(s, t, a, s') && SeenAt(s, u) && SeenAt(s, t)
    requires SlotLockAt(s, u, FdOf(PcOf(s, u))) && SlotLockAt(s, t, FdOf(PcOf(s, u))) && SlotLockAt(s, t, FdOf(PcOf(s, t)))
    ensures SeenAt(s', u)
  {
  }

  lemma QueueKeepsFlag(s: State, t: Tid, a: Action, s': State, u: Tid, p: Pid, k: Kind)
    requires QueueStep(s, t, a, s') && FlagAt(s, u, p, k) && FlagAt(s, t, p, k)
    ensures FlagAt(s', u, p, k)
  {
  }

  lemma QueueKeepsSlot(s: State, t: Tid, a: Action, s': State, fd: Fd, p: Pid)
    requires QueueStep(s, t, a, s') && SlotAt(s, fd, p) && SlotAt(s, FdOf(PcOf(s, t)), p) && CarriedAt(s, t, p) && CountsAt(s, p)
    ensures SlotAt(s', fd, p)
  {
  }

  lemma QueueKeepsCarried(s: State, t: Tid, a: Action, s': State, u: Tid, p: Pid)
    requires QueueStep(s, t, a, s') && CarriedAt(s, u, p) && CarriedAt(s, t, p) && SlotAt(s, FdOf(PcOf(s, t)), p) && CountsAt(s, p)
    ensures CarriedAt(s', u, p)
  {
  }

  lemma QueueKeepsCounts(s: State, t: Tid, a: Action, s': State, p: Pid)
    requires QueueStep(s, t, a, s') && CountsAt(s, p) && CarriedAt(s, t, p) && SlotAt(s, FdOf(PcOf(s, t)), p)
    ensures CountsAt(s', p)
  {
  }

  lemma QueueKeepsStarted(s: State, t: Tid, a: Action, s': State, p: Pid)
    requires QueueStep(s, t, a, s') && CountsAt(s, p) && StartedAt(s, p) && CarriedAt(s, t, p) && SlotAt(s, FdOf(PcOf(s, t)), p)
    requires PlaceOf(s, p).With? ==> CarriedAt(s, PlaceOf(s, p).t, p)
    ensures StartedAt(s', p)
  {
  }

  lemma QueueKeepsCalm(s: State, t: Tid, a: Action, s': State, p: Pid)
    requires QueueStep(s, t, a, s') && CountsAt(s, p) && CalmAt(s, p) && CarriedAt(s, t, p) && SlotAt(s, FdOf(PcOf(s, t)), p)
    requires SeenAt(s, t) && (PlaceOf(s, p).With? ==> CarriedAt(s, PlaceOf(s, p).t, p))
    ensures CalmAt(s', p)
  {
  }

  lemma CloseKeepsSlotLock(s: State, t: Tid, a: Action, s': State, u: Tid, fd: Fd)
    requires CloseStep(s, t, a, s') && SlotLockAt(s, u, fd) && SlotLockAt(s, t, fd) && SlotLockAt(s, t, FdOf(PcOf(s, t)))
    ensures SlotLockAt(s', u, fd)
  {
  }

  lemma CloseKeepsSeen(s: State, t: Tid, a: Action, s': State, u: Tid)
    requires CloseStep(s, t, a, s') && SeenAt(s, u) && SeenAt(s, t)
    requires SlotLockAt(s, u, FdOf(PcOf(s, u))) && SlotLockAt(s, t, FdOf(PcOf(s, u))) && SlotLockAt(s, t, FdOf(PcOf(s, t)))
    ensures SeenAt(s', u)
  {
  }

  lemma CloseKeepsFlag(s: State, t: Tid, a: Action, s': State, u: Tid, p: Pid, k: Kind)
    requires CloseStep(s, t, a, s') && FlagAt(s, u, p, k) && FlagAt(s, t, p, k)
    ensures FlagAt(s', u, p, k)
  {
  }

  lemma CloseKeepsSlot(s: State, t: Tid, a: Action, s': State, fd: Fd, p: Pid)
    requires CloseStep(s, t, a, s') && SlotAt(s, fd, p) && SlotAt(s, FdOf(PcOf(s, t)), p) && CarriedAt(s, t, p) && CountsAt(s, p)
    ensures SlotAt(s', fd, p)
  {
  }

  lemma CloseKeepsCarried(s: State, t: Tid, a: Action, s': State, u: Tid, p: Pid)
    requires CloseStep(s, t, a, s') && CarriedAt(s, u, p) && CarriedAt(s, t, p) && SlotAt(s, FdOf(PcOf(s, t)), p) && CountsAt(s, p)
    ensures CarriedAt(s', u, p)
  {
  }

  lemma CloseKeepsStarted(s: State, t: Tid, a: Action, s': State, p: Pid)
    requires CloseStep(s, t, a, s') && CountsAt(s, p) && StartedAt(s, p) && CarriedAt(s, t, p) && SlotAt(s, FdOf(PcOf(s, t)), p)
    requires PlaceOf(s, p).With? ==> CarriedAt(s, PlaceOf(s, p).t, p)
    ensures CountsAt(s', p) && StartedAt(s', p)
  {
  }

  lemma CloseKeepsCalm(s: State, t: Tid, a: Action, s': State, p: Pid)
    requires CloseStep(s, t, a, s') && CountsAt(s, p) && CalmAt(s, p) && CarriedAt(s, t, p) && SlotAt(s, FdOf(PcOf(s, t)), p)
    requires SeenAt(s, t) && (PlaceOf(s, p).With? ==> CarriedAt(s, PlaceOf(s, p).t, p))
    ensures CalmAt(s', p)
  {
  }

  lemma StepKeepsAt(s: State, t: Tid, a: Action, s': State, u: Tid, fd: Fd, p: Pid, k: Kind)
    requires Next(s, t, a, s') && Known(s, t, u, fd, p, k)
    ensures InvAt(s', u, fd, p, k)
  {
    if LockStep(s, t, a, s') {
      LockKeepsSlotLock(s, t, a, s', u, fd);
      LockKeepsSeen(s, t, a, s', u);
      LockKeepsFlag(s, t, a, s', u, p, k);
      LockKeepsSlot(s, t, a, s', fd, p);
      LockKeepsCarried(s, t, a, s', u, p);
      LockKeepsCounts(s, t, a, s', p);
      LockKeepsStarted(s, t, a, s', p);
      LockKeepsCalm(s, t, a, s', p);
    } else if AttachStep(s, t, a, s') {
      AttachKeepsSlotLock(s, t, a, s', u, fd);
      AttachKeepsSeen(s, t, a, s', u);
      AttachKeepsFlag(s, t, a, s', u, p, k);
      AttachKeepsSlot(s, t, a, s', fd, p);
      AttachKeepsCarried(s, t, a, s', u, p);
      AttachKeepsCounts(s, t, a, s', p);
      AttachKeepsStarted(s, t, a, s', p);
      AttachKeepsCalm(s, t, a, s', p);
    } else if DetachStep(s, t, a, s') {
      DetachKeepsSlotLock(s, t, a, s', u, fd);
      DetachKeepsSeen(s, t, a, s', u);
      DetachKeepsFlag(s, t, a, s', u, p, k);
      DetachKeepsSlot(s, t, a, s', fd, p);
      DetachKeepsCarried(s, t, a, s', u, p);
      DetachKeepsCounts(s, t, a, s', p);
      DetachKeepsStarted(s, t, a, s', p);
      DetachKeepsCalm(s, t, a, s', p);
    } else if QueueStep(s, t, a, s') {
      QueueKeepsSlotLock(s, t, a, s', u, fd);
      QueueKeepsSeen(s, t, a, s', u);
      QueueKeepsFlag(s, t, a, s', u, p, k);
      QueueKeepsSlot(s, t, a, s', fd, p);
      QueueKeepsCarried(s, t, a, s', u, p);
      QueueKeepsCounts(s, t, a, s', p);
      QueueKeepsStarted(s, t, a, s', p);
      QueueKeepsCalm(s, t, a, s', p);
    } else {
      CloseKeepsSlotLock(s, t, a, s', u, fd);
      CloseKeepsSeen(s, t, a, s', u);
      CloseKeepsFlag(s, t, a, s', u, p, k);
      CloseKeepsSlot(s, t, a, s', fd, p);
      CloseKeepsCarried(s, t, a, s', u, p);
      CloseKeepsStarted(s, t, a, s', p);
      CloseKeepsCalm(s, t, a, s', p);
    }
  }

  lemma StepKeeps(s: State, t: Tid, a: Action, s': State)
    requires Inv(s) && Next(s, t, a, s')
    ensures Inv(s')
  {
    hide Next, Known;
    forall u: Tid, fd: Fd, p: Pid, k: Kind ensures InvAt(s', u, fd, p, k) {
      KnownHere(s, t, u, fd, p, k);
      StepKeepsAt(s, t, a, s', u, fd, p, k);
    }
  }

  lemma KnownHere(s: State, t: Tid, u: Tid, fd: Fd, p: Pid, k: Kind)
    requires Inv(s)
    ensures Known(s, t, u, fd, p, k)
  {
    assert InvAt(s, t, fd, p, TaskLock) && InvAt(s, t, fd, p, WriteLock) && InvAt(s, t, fd, p, StateLock);
    if PlaceOf(s, p).With? {
      assert InvAt(s, PlaceOf(s, p).t, fd, p, k);
    }
  }

  // ---------------------------------------------------------------------------------------------
  // Whole runs

  ghost predicate IsRun(states: seq<State>, moves: seq<(Tid, Action)>) {
    && |states| == |moves| + 1 && Init(states[0])
    && forall i :: 0 <= i < |moves| ==> Next(states[i], moves[i].0, moves[i].1, states[i + 1])
  }

  lemma {:induction false} RunKeeps(states: seq<State>, moves: seq<(Tid, Action)>, i: nat)
    requires IsRun(states, moves) && i <= |moves|
    ensures Inv(states[i])
  {
    hide Next;
    if i > 0 {
      RunKeeps(states, moves, i - 1);
      StepKeeps(states[i - 1], moves[i - 1].0, moves[i - 1].1, states[i]);
    }
  }

  /** Two callbacks under the same lock of one protocol never overlap. */
  lemma CallbacksNeverOverlap(states: seq<State>, moves: seq<(Tid, Action)>, i: nat, u: Tid, v: Tid, k: Kind, p: Pid)
    requires IsRun(states, moves) && i <= |moves|
    requires PcOf(states[i], u) == PcOf(states[i], v) == Running(k, p)
    ensures u == v
  {
    RunKeeps(states, moves, i);
    assert InvAt(states[i], u, 0, p, k) && InvAt(states[i], v, 0, p, k);
  }

  /** Only the check of a deferred close starts one, and only while no lock bit is set. */
  lemma OnlyCheckCloses(s: State, t: Tid, a: Action, s': State)
    requires Next(s, t, a, s')
    ensures s'.closes == s.closes
      || (PcOf(s, t).Checking? && !Flagged(s, PcOf(s, t).pr) && s'.closes == s.closes + multiset{PcOf(s, t).pr}
          && PcOf(s', t) == Closing(PcOf(s, t).pr))
  {
  }

  /** Once a close has started it stays started. */
  lemma {:induction false} ClosesGrow(states: seq<State>, moves: seq<(Tid, Action)>, i: nat, j: nat, p: Pid)
    requires IsRun(states, moves) && i <= j <= |moves|
    ensures states[i].closes[p] <= states[j].closes[p]
    decreases j
  {
    if i < j {
      ClosesGrow(states, moves, i, j - 1, p);
      OnlyCheckCloses(states[j - 1], moves[j - 1].0, moves[j - 1].1, states[j]);
    }
  }

  /** From the moment `on_close` starts no callback of the protocol is running, none holds a lock of
      it, and none ever starts again. */
  lemma NoCallbackAfterClose(states: seq<State>, moves: seq<(Tid, Action)>, i: nat, j: nat, u: Tid, k: Kind, p: Pid)
    requires IsRun(states, moves) && i <= j <= |moves| && states[i].closes[p] > 0
    ensures !HoldsFlag(PcOf(states[j], u), p, k) && PcOf(states[j], u) != Running(k, p)
  {
    ClosesGrow(states, moves, i, j, p);
    RunKeeps(states, moves, j);
    assert InvAt(states[j], u, 0, p, k);
  }

  /** `on_close` starts at most once, and when it does no activity holds a lock of the protocol. */
  lemma CloseStartsAlone(states: seq<State>, moves: seq<(Tid, Action)>, i: nat, u: Tid, k: Kind, p: Pid)
    requires IsRun(states, moves) && i < |moves| && states[i + 1].closes[p] > states[i].closes[p]
    ensures states[i].closes[p] == 0 && states[i + 1].closes[p] == 1
    ensures !HoldsFlag(PcOf(states[i], u), p, k)
    ensures PcOf(states[i + 1], moves[i].0) == Closing(p)
  {
    RunKeeps(states, moves, i);
    RunKeeps(states, moves, i + 1);
    OnlyCheckCloses(states[i], moves[i].0, moves[i].1, states[i + 1]);
    assert InvAt(states[i], u, 0, p, k) && InvAt(states[i + 1], moves[i].0, 0, p, k);
  }

  /** The activity is on its way to the close of the object. */
  predicate BringsClose(pc: Pc, p: Pid) {
    pc == Pushing(p) || pc == Checking(p) || (pc.Swapped? && pc.old' == Some(p)) || (pc.Cleared? && pc.old' == Some(p))
  }

  /** The activity is about to put the object into a slot. */
  predicate BringsAttach(pc: Pc, p: Pid) {
    (pc.WaitAttach? || pc.HasAttach?) && pc.new' == Some(p)
  }

  /** An object handed to attach that is in no slot and on no way into one (replaced, cleared or
      rejected) has exactly one close: queued, on its way, or started. */
  lemma ExactlyOneClose(states: seq<State>, moves: seq<(Tid, Action)>, i: nat, p: Pid)
    requires IsRun(states, moves) && i <= |moves|
    requires Outside(states[i], p)
    ensures OneClose(states[i], p)
  {
    RunKeeps(states, moves, i);
    OneCloseOutside(states[i], p);
  }

  /** Handed to attach, in no slot and on no way into one. */
  ghost predicate Outside(s: State, p: Pid) {
    p in s.attached && (forall fd: Fd :: SlotOf(s, fd) != Some(p)) && (forall u: Tid :: !BringsAttach(PcOf(s, u), p))
  }

  ghost predicate NoneBrings(s: State, p: Pid) {
    forall u: Tid :: !BringsClose(PcOf(s, u), p)
  }

  ghost predicate OnlyBrings(s: State, p: Pid, u: Tid) {
    BringsClose(PcOf(s, u), p) && forall v: Tid :: BringsClose(PcOf(s, v), p) ==> v == u
  }

  /** One close: its task is queued, or one activity is on the way with it, or it has started. */
  ghost predicate OneClose(s: State, p: Pid) {
    || (s.pending[p] == 1 && s.closes[p] == 0 && NoneBrings(s, p))
    || (s.pending[p] == 0 && s.closes[p] == 1 && NoneBrings(s, p))
    || (s.pending[p] == 0 && s.closes[p] == 0 && exists u: Tid :: OnlyBrings(s, p, u))
  }

  lemma OneCloseOutside(s: State, p: Pid)
    requires Inv(s) && Outside(s, p)
    ensures OneClose(s, p)
  {
    assert InvAt(s, 0, 0, p, TaskLock);
    forall u: Tid ensures BringsClose(PcOf(s, u), p) ==> PlaceOf(s, p) == With(u) && PcOf(s, u) != Closing(p) {
      assert InvAt(s, u, 0, p, TaskLock);
    }
    forall fd: Fd ensures PlaceOf(s, p) != InSlot(fd) {
      assert InvAt(s, 0, fd, p, TaskLock);
    }
    match PlaceOf(s, p)
    case New =>
    case InSlot(_) =>
    case Queued =>
    case Done =>
    case With(t) =>
      assert InvAt(s, t, 0, p, TaskLock);
      if PcOf(s, t) != Closing(p) {
        assert OnlyBrings(s, p, t);
      }
  }
}
