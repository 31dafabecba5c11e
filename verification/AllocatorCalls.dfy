/** Whole calls of the small-block allocator: what a request gets, how long it keeps it, and when it fails. */
module AllocatorCalls {
  import opened Options
  import opened Allocator

  // ---------------------------------------------------------------------------------------------
  // A slice stays as it is until it is freed

  /** The slice is out as before; only its taker may have left with it. */
  ghost predicate Stays(s: State, s': State, p: Ptr) {
    && Live(s, p) && Live(s', p) && Length(s', p) == Length(s, p)
    && (Given(s, p) ==> Given(s', p))
  }

  /** What the slice holds is the same. */
  ghost predicate SameContents(s: State, s': State, p: Ptr)
    requires Live(s, p) && p.blk in s'.blocks
  {
    var mem, mem' := s.blocks[p.blk].mem, s'.blocks[p.blk].mem;
    forall u: nat | p.at <= u < p.at + Length(s, p) :: (u in mem' <==> u in mem) && (u in mem ==> mem'[u] == mem[u])
  }

  ghost predicate KeepsSlice(s: State, t: Tid, act: Action, s': State, p: Ptr)
    requires Live(s, p)
  {
    && (act != Free(p) ==> Stays(s, s', p))
    && (act != Free(p) && !(act.Write? && act.ptr == p) ==> SameContents(s, s', p))
    && forall u: Tid | u != t && Carried(s, u, p) :: Carried(s', u, p)
  }

  lemma EnterKeepsSlice(s: State, t: Tid, act: Action, s': State, p: Ptr)
    requires EnterStep(s, t, act, s') && Live(s, p)
    ensures KeepsSlice(s, t, act, s', p)
  {
  }

  lemma CutKeepsSlice(k: Block, units: nat, t: Tid, at: nat)
    requires Fits(k) && at in k.live
    ensures var k' := Cut(k, units, t); at in k'.live && k'.live[at] == k.live[at] && k'.mem == k.mem
  {
  }

  lemma TakeKeepsSlice(s: State, t: Tid, s': State, p: Ptr)
    requires SliceStep(s, t, TakeSlice, s') && Live(s, p) && Fits(s.blocks[p.blk])
    ensures Live(s', p) && s'.blocks[p.blk].live[p.at] == s.blocks[p.blk].live[p.at]
    ensures s'.blocks[p.blk].mem == s.blocks[p.blk].mem
  {
    CutKeepsSlice(s.blocks[p.blk], PcOf(s, t).call.units, t, p.at);
    hide Cut, Fits;
  }

  lemma SliceKeepsSlice(s: State, t: Tid, act: Action, s': State, p: Ptr)
    requires SliceStep(s, t, act, s') && Live(s, p) && Fits(s.blocks[p.blk]) && CallAt(s, t)
    ensures KeepsSlice(s, t, act, s', p)
  {
    hide Cut, Fits;
    if act.TakeSlice? { TakeKeepsSlice(s, t, s', p); }
  }

  lemma CleanKeepsSlice(s: State, t: Tid, act: Action, s': State, p: Ptr)
    requires CleanStep(s, t, act, s') && Live(s, p) && Out(s, p.blk) && UnmapAt(s, t, p.blk.root)
    requires CleanAt(s, t, p.blk) && Quiet(s, p.blk)
    ensures KeepsSlice(s, t, act, s', p)
  {
  }

  lemma NewKeepsSlice(s: State, t: Tid, act: Action, s': State, p: Ptr)
    requires NewStep(s, t, act, s') && Live(s, p) && Out(s, p.blk) && BlockAt(s, p.blk)
    ensures KeepsSlice(s, t, act, s', p)
  {
  }

  lemma ClientKeepsSlice(s: State, t: Tid, act: Action, s': State, p: Ptr)
    requires ClientStep(s, t, act, s') && Live(s, p) && BlockAt(s, p.blk)
    ensures KeepsSlice(s, t, act, s', p)
  {
  }

  lemma StepKeepsSlice(s: State, t: Tid, act: Action, s': State, p: Ptr)
    requires Inv(s) && Next(s, t, act, s') && Live(s, p)
    ensures KeepsSlice(s, t, act, s', p)
  {
    LinksHere(s, t, 0, p.blk);
    assert Out(s, p.blk);
    if EnterStep(s, t, act, s') { EnterKeepsSlice(s, t, act, s', p); }
    else if SliceStep(s, t, act, s') { SliceKeepsSlice(s, t, act, s', p); }
    else if CleanStep(s, t, act, s') { CleanKeepsSlice(s, t, act, s', p); }
    else if NewStep(s, t, act, s') { NewKeepsSlice(s, t, act, s', p); }
    else { ClientKeepsSlice(s, t, act, s', p); }
  }

  /** A slice that was given to the program stays given, with its length, until it is freed. */
  lemma {:induction false} KeptUntilFreed(states: seq<State>, moves: seq<(Tid, Action)>, j: nat, k: nat, p: Ptr)
    requires IsRun(states, moves) && j <= k <= |moves| && Given(states[j], p)
    requires forall i | j <= i < k :: moves[i].1 != Free(p)
    ensures Given(states[k], p) && Length(states[k], p) == Length(states[j], p)
    decreases k
  {
    if j < k {
      KeptUntilFreed(states, moves, j, k - 1, p);
      RunKeeps(states, moves, k - 1);
      StepKeepsSlice(states[k - 1], moves[k - 1].0, moves[k - 1].1, states[k], p);
    }
  }

  /** What the program has written stays until it writes to that slice again or frees it. */
  lemma ContentsStay(states: seq<State>, moves: seq<(Tid, Action)>, i: nat, p: Ptr)
    requires IsRun(states, moves) && i < |moves| && Given(states[i], p)
    requires moves[i].1 != Free(p) && !(moves[i].1.Write? && moves[i].1.ptr == p)
    ensures Given(states[i + 1], p) && Length(states[i + 1], p) == Length(states[i], p) && SameContents(states[i], states[i + 1], p)
  {
    RunKeeps(states, moves, i);
    StepKeepsSlice(states[i], moves[i].0, moves[i].1, states[i + 1], p);
  }

  // ---------------------------------------------------------------------------------------------
  // A call gets what it asked for

  /** The thread is in a call for `size` bytes; once it has its slice, that holds so many bytes and wastes
      less than a unit. */
  ghost predicate Serves(s: State, t: Tid, size: nat) {
    match PcOf(s, t).call
    case Outside => false
    case Entered(_, units) => Suits(units, size)
    case NeedBlock(_, units) => Suits(units, size)
    case Ready(_, units) => Suits(units, size)
    case Full(_, p) => Carried(s, t, p) && Suits(Length(s, p), size)
    case Emptied(_, p) => Carried(s, t, p) && Suits(Length(s, p), size)
    case Leaving(_, p) => Carried(s, t, p) && Suits(Length(s, p), size)
    case Failing(_) => true
  }

  predicate Suits(units: nat, size: nat) {
    16 * units - 16 < size <= 16 * units
  }

  /** The step ends the thread's call. */
  predicate Ends(act: Action) {
    act.Leave? || act.LeaveEmpty?
  }

  lemma EnterServes(s: State, t: Tid, act: Action, s': State, size: nat)
    requires EnterStep(s, t, act, s') && !Ends(act)
    requires act.Enter? ==> act.size == size
    requires !act.Enter? ==> Serves(s, t, size)
    ensures Serves(s', t, size)
  {
  }

  lemma SliceServes(s: State, t: Tid, act: Action, s': State, size: nat)
    requires SliceStep(s, t, act, s') && !Ends(act) && Serves(s, t, size)
    ensures Serves(s', t, size)
  {
  }

  lemma OwnServes(s: State, t: Tid, act: Action, s': State, size: nat)
    requires CleanStep(s, t, act, s') || NewStep(s, t, act, s') || ClientStep(s, t, act, s')
    requires Serves(s, t, size) && CallAt(s, t)
    requires PcOf(s, t).call.Full? || PcOf(s, t).call.Emptied? || PcOf(s, t).call.Leaving? ==>
               UnmapAt(s, t, PcOf(s, t).call.ptr.blk.root) && Out(s, PcOf(s, t).call.ptr.blk)
    ensures Serves(s', t, size)
  {
  }

  lemma OwnStepServes(s: State, t: Tid, act: Action, s': State, size: nat)
    requires Inv(s) && Next(s, t, act, s') && Serves(s, t, size) && !Ends(act)
    ensures Serves(s', t, size)
  {
    var c := PcOf(s, t).call;
    LinksHere(s, t, 0, if c.Full? || c.Emptied? || c.Leaving? then c.ptr.blk else Bid(0, 0));
    if EnterStep(s, t, act, s') { EnterServes(s, t, act, s', size); }
    else if SliceStep(s, t, act, s') { SliceServes(s, t, act, s', size); }
    else { OwnServes(s, t, act, s', size); }
  }

  /** Where a thread is, other threads leave it. */
  lemma MallocKeepsPc(s: State, u: Tid, act: Action, s': State, t: Tid)
    requires (EnterStep(s, u, act, s') || SliceStep(s, u, act, s')) && u != t
    ensures PcOf(s', t) == PcOf(s, t)
  {
  }

  lemma RestKeepsPc(s: State, u: Tid, act: Action, s': State, t: Tid)
    requires (CleanStep(s, u, act, s') || NewStep(s, u, act, s') || ClientStep(s, u, act, s')) && u != t
    ensures PcOf(s', t) == PcOf(s, t)
  {
  }

  lemma OthersKeepPc(s: State, u: Tid, act: Action, s': State, t: Tid)
    requires Next(s, u, act, s') && u != t
    ensures PcOf(s', t) == PcOf(s, t)
  {
    hide EnterStep, SliceStep, CleanStep, NewStep, ClientStep, PcOf;
    if EnterStep(s, u, act, s') || SliceStep(s, u, act, s') {
      MallocKeepsPc(s, u, act, s', t);
    } else {
      RestKeepsPc(s, u, act, s', t);
    }
  }

  lemma OtherStepServes(s: State, u: Tid, act: Action, s': State, t: Tid, size: nat)
    requires Inv(s) && Next(s, u, act, s') && u != t && Serves(s, t, size)
    ensures Serves(s', t, size)
  {
    OthersKeepPc(s, u, act, s', t);
    hide Next;
    var c := PcOf(s, t).call;
    if c.Full? || c.Emptied? || c.Leaving? {
      StepKeepsSlice(s, u, act, s', c.ptr);
      NotFreed(s, u, act, s', t, c.ptr);
    }
  }

  lemma NotFreed(s: State, u: Tid, act: Action, s': State, t: Tid, p: Ptr)
    requires Next(s, u, act, s') && Carried(s, t, p)
    ensures act != Free(p)
  {
  }

  lemma {:induction false} ServedAlong(states: seq<State>, moves: seq<(Tid, Action)>, i: nat, j: nat, t: Tid, a: Aid, size: nat)
    requires IsRun(states, moves) && i < j <= |moves| && moves[i] == (t, Enter(a, size))
    requires forall n | i < n < j :: moves[n].0 == t ==> !Ends(moves[n].1)
    ensures Serves(states[j], t, size)
    decreases j
  {
    var s, u, act := states[j - 1], moves[j - 1].0, moves[j - 1].1;
    assert Next(s, u, act, states[j]);
    if j == i + 1 {
      assert EnterStep(s, t, act, states[j]);
      EnterServes(s, t, act, states[j], size);
    } else {
      ServedAlong(states, moves, i, j - 1, t, a, size);
      RunKeeps(states, moves, j - 1);
      if u == t { OwnStepServes(s, t, act, states[j], size); } else { OtherStepServes(s, u, act, states[j], t, size); }
    }
  }

  /** A request for `size` bytes that returns with a slice returns one that holds them and wastes less than
      16 bytes; the program has it as it is until it frees it. */
  lemma MallocGives(states: seq<State>, moves: seq<(Tid, Action)>, i: nat, j: nat, k: nat, t: Tid, a: Aid, size: nat)
    requires IsRun(states, moves) && i < j < k <= |moves|
    requires moves[i] == (t, Enter(a, size)) && moves[j] == (t, Leave)
    requires forall n | i < n < j :: moves[n].0 == t ==> !Ends(moves[n].1)
    requires PcOf(states[j], t).call.Leaving? ==> forall n | j < n < k :: moves[n].1 != Free(PcOf(states[j], t).call.ptr)
    ensures PcOf(states[j], t).call.Leaving?
    ensures var p := PcOf(states[j], t).call.ptr;
      Given(states[k], p) && size <= 16 * Length(states[k], p) < size + 16
  {
    ServedAlong(states, moves, i, j, t, a, size);
    assert SliceStep(states[j], t, Leave, states[j + 1]);
    KeptUntilFreed(states, moves, j + 1, k, PcOf(states[j], t).call.ptr);
  }

  // ---------------------------------------------------------------------------------------------
  // When a call fails, and that it does not get stuck

  /** The thread's call has found no memory. */
  predicate Failed(s: State, t: Tid) {
    PcOf(s, t).call.Failing?
  }

  lemma OnlyMapFails(s: State, t: Tid, act: Action, s': State)
    requires Next(s, t, act, s') && !Failed(s, t) && Failed(s', t)
    ensures act == MapFails && PoolEmpty(s)
  {
  }

  lemma FailingStays(s: State, u: Tid, act: Action, s': State, t: Tid)
    requires Next(s, u, act, s') && Failed(s, t) && Failed(s', t)
    ensures u == t ==> !act.Enter?
  {
  }

  /** A call returns without a slice only if the pool was empty and the system had no memory for it. */
  lemma {:induction false} FailsWithoutMemory(states: seq<State>, moves: seq<(Tid, Action)>, i: nat, j: nat, t: Tid)
      returns (k: nat)
    requires IsRun(states, moves) && i < j < |moves| && moves[i].0 == t && moves[i].1.Enter?
    requires forall n | i < n < j :: moves[n].0 == t ==> !Ends(moves[n].1)
    requires Failed(states[j], t)
    ensures i < k < j && moves[k] == (t, MapFails) && PoolEmpty(states[k])
    decreases j
  {
    var s, u, act := states[j - 1], moves[j - 1].0, moves[j - 1].1;
    assert Next(s, u, act, states[j]);
    if u != t { OthersKeepPc(s, u, act, states[j], t); }
    if Failed(s, t) {
      FailingStays(s, u, act, states[j], t);
      k := FailsWithoutMemory(states, moves, i, j - 1, t);
    } else {
      OnlyMapFails(s, t, act, states[j]);
      k := j - 1;
    }
  }

  /** Freeing a slice takes it, and nothing else, from those that are out. */
  lemma FreeTakesOne(states: seq<State>, moves: seq<(Tid, Action)>, i: nat, p: Ptr, q: Ptr)
    requires IsRun(states, moves) && i < |moves| && moves[i].1 == Free(p) && Live(states[i], q)
    ensures Given(states[i], p) && (Live(states[i + 1], q) <==> q != p)
  {
    var s, t := states[i], moves[i].0;
    RunKeeps(states, moves, i);
    assert ClientStep(s, t, Free(p), states[i + 1]);
    if q != p { StepKeepsSlice(s, t, Free(p), states[i + 1], q); }
  }

  /** The thread has something to do in its call. */
  ghost predicate Moves(s: State, t: Tid) {
    exists act: Action, s': State :: act != MapFails && Next(s, t, act, s')
  }

  lemma Can(s: State, t: Tid, act: Action, s': State)
    requires act != MapFails && Next(s, t, act, s')
    ensures Moves(s, t)
  {
  }

  lemma {:induction false} Above(keys: set<nat>) returns (m: nat)
    ensures forall k | k in keys :: k < m
    decreases |keys|
  {
    if keys == {} {
      m := 0;
    } else {
      var k :| k in keys;
      var rest := Above(keys - {k});
      assert keys == (keys - {k}) + {k};
      m := if k < rest then rest else k + 1;
    }
  }

  lemma WipingMoves(s: State, t: Tid)
    requires Inv(s) && PcOf(s, t).Wiping?
    ensures Moves(s, t)
  {
    var pc := PcOf(s, t);
    hide Moves;
    LinksHere(s, t, 0, pc.blk);
    hide Inv, Wipe;
    var s' := Go(SetBlock(s, pc.blk, Wipe(s.blocks[pc.blk], t)), t, Wiped(pc.blk, pc.call));
    assert CleanStep(s, t, WipeBlock, s');
    Can(s, t, WipeBlock, s');
  }

  lemma WipedMoves(s: State, t: Tid)
    requires Inv(s) && PcOf(s, t).Wiped?
    ensures Moves(s, t)
  {
    var pc := PcOf(s, t);
    hide Moves;
    LinksHere(s, t, 0, pc.blk);
    hide Inv, Pooled, Returned;
    var m := s.maps[pc.blk.root];
    var s' := Go(SetBlock(s, pc.blk, Pooled(s.blocks[pc.blk], 0)), t,
                 if m.rootRef - 1 != 0 then At(pc.call) else Unmapping(pc.blk.root, pc.call))
              .(maps := s.maps[pc.blk.root := Returned(m, pc.blk.index, t)]);
    assert CleanStep(s, t, GiveBack(0), s');
    Can(s, t, GiveBack(0), s');
  }

  lemma CleaningMoves(s: State, t: Tid)
    requires Inv(s) && !PcOf(s, t).At?
    ensures Moves(s, t)
  {
    var pc := PcOf(s, t);
    hide Moves, Inv;
    if pc.Unmapping? {
      var s' := Go(s, t, At(pc.call)).(maps := s.maps - {pc.root}, blocks := map b | b in s.blocks && b.root != pc.root :: s.blocks[b]);
      assert CleanStep(s, t, Unmap, s');
      Can(s, t, Unmap, s');
    } else if pc.Wiping? {
      WipingMoves(s, t);
    } else {
      WipedMoves(s, t);
    }
  }

  lemma NeedyMoves(s: State, t: Tid)
    requires Inv(s) && PcOf(s, t).At? && PcOf(s, t).call.NeedBlock?
    ensures Moves(s, t)
  {
    var c := PcOf(s, t).call;
    if PoolEmpty(s) {
      var m := Above(s.maps.Keys);
      var s' := Go(s, t, At(Ready(c.arena, c.units)))
                .(maps := s.maps[m := NewMapping()], blocks := s.blocks + NewBlocks(m, c.arena, 0), arenas := s.arenas[c.arena := Bid(m, 0)]);
      assert NewStep(s, t, MapNew(m, 0), s');
      Can(s, t, MapNew(m, 0), s');
    } else {
      var m :| m in s.maps && s.maps[m].pooled != {};
      var i :| i in s.maps[m].pooled;
      var b := Bid(m, i);
      LinksHere(s, t, 0, b);
      var s' := Go(SetBlock(s, b, Inited(s.blocks[b], c.arena)), t, At(Ready(c.arena, c.units)))
                .(maps := s.maps[m := Taken(s.maps[m], i)], arenas := s.arenas[c.arena := b]);
      assert NewStep(s, t, TakePooled(b), s');
      Can(s, t, TakePooled(b), s');
    }
  }

  lemma EnteringMoves(s: State, t: Tid)
    requires Inv(s) && PcOf(s, t).At? && (PcOf(s, t).call.Entered? || PcOf(s, t).call.Failing?)
    ensures Moves(s, t)
  {
    var c := PcOf(s, t).call;
    if c.Failing? {
      var s' := Go(s, t, At(Outside)).(locks := s.locks - {c.arena});
      assert EnterStep(s, t, LeaveEmpty, s');
      Can(s, t, LeaveEmpty, s');
    } else {
      var act := Look;
      var s' :=
        if c.arena !in s.arenas then Go(s, t, At(NeedBlock(c.arena, c.units)))
        else
          var b := s.arenas[c.arena];
          if b !in s.blocks then s
          else if s.blocks[b].pos + c.units > LIMIT then
            Go(SetBlock(s, b, Dropped(s.blocks[b], t)), t, AfterDecrement(s.blocks[b], b, NeedBlock(c.arena, c.units)))
          else Go(s, t, At(Ready(c.arena, c.units)));
      if c.arena in s.arenas {
        LinksHere(s, t, c.arena, s.arenas[c.arena]);
      }
      assert EnterStep(s, t, Look, s');
      Can(s, t, Look, s');
    }
  }

  lemma SlicingMoves(s: State, t: Tid)
    requires Inv(s) && PcOf(s, t).At?
    requires PcOf(s, t).call.Ready? || PcOf(s, t).call.Full? || PcOf(s, t).call.Emptied? || PcOf(s, t).call.Leaving?
    ensures Moves(s, t)
  {
    var c := PcOf(s, t).call;
    LinksHere(s, t, 0, Bid(0, 0));
    if c.Ready? {
      var b := s.arenas[c.arena];
      var k, p := s.blocks[b], Ptr(b, s.blocks[b].pos);
      var s' := Go(SetBlock(s, b, Cut(k, c.units, t)), t, At(if k.pos + c.units >= LIMIT then Full(c.arena, p) else Leaving(c.arena, p)));
      assert SliceStep(s, t, TakeSlice, s');
      Can(s, t, TakeSlice, s');
    } else if c.Full? {
      var s' := Go(SetBlock(s, c.ptr.blk, Dropped(s.blocks[c.ptr.blk], t)), t,
                   AfterDecrement(s.blocks[c.ptr.blk], c.ptr.blk, Emptied(c.arena, c.ptr)));
      assert SliceStep(s, t, Drop, s');
      Can(s, t, Drop, s');
    } else if c.Emptied? {
      var s' := Go(s, t, At(Leaving(c.arena, c.ptr))).(arenas := s.arenas - {c.arena});
      assert SliceStep(s, t, Clear, s');
      Can(s, t, Clear, s');
    } else {
      var k := s.blocks[c.ptr.blk];
      var s' := Go(SetBlock(s, c.ptr.blk, k.(live := k.live[c.ptr.at := k.live[c.ptr.at].(taker := None)])), t, At(Outside))
                .(locks := s.locks - {c.arena});
      assert SliceStep(s, t, Leave, s');
      Can(s, t, Leave, s');
    }
  }

  /** A thread inside a call, or inside the cleaning of a block, can always go on, whatever the others do and
      without the system having to refuse it memory. */
  lemma NeverStuck(states: seq<State>, moves: seq<(Tid, Action)>, i: nat, t: Tid)
    requires IsRun(states, moves) && i <= |moves| && PcOf(states[i], t) != At(Outside)
    ensures Moves(states[i], t)
  {
    RunKeeps(states, moves, i);
    hide IsRun, Moves;
    var s := states[i];
    if !PcOf(s, t).At? { CleaningMoves(s, t); }
    else if PcOf(s, t).call.NeedBlock? { NeedyMoves(s, t); }
    else if PcOf(s, t).call.Entered? || PcOf(s, t).call.Failing? { EnteringMoves(s, t); }
    else { SlicingMoves(s, t); }
  }

  /** The step is possible, and the thread goes on as `pc`. */
  ghost predicate CanStart(s: State, t: Tid, act: Action, pc: Pc) {
    exists s': State :: Next(s, t, act, s') && PcOf(s', t) == pc
  }

  lemma Starts(s: State, t: Tid, act: Action, s': State)
    requires Next(s, t, act, s')
    ensures CanStart(s, t, act, PcOf(s', t))
  {
  }

  /** A thread outside of calls can ask for any small size, from any arena that no other thread has, and free any slice
      that the program has. */
  lemma CallsCanStart(s: State, t: Tid)
    requires PcOf(s, t) == At(Outside)
    ensures forall a: Aid, size: nat | a !in s.locks && 0 < size < ALLOC_LIMIT ::
      CanStart(s, t, Enter(a, size), At(Entered(a, Units(size))))
    ensures forall p: Ptr | Given(s, p) :: exists pc: Pc :: CanStart(s, t, Free(p), pc)
  {
    hide CanStart, Next;
    forall a: Aid, size: nat | a !in s.locks && 0 < size < ALLOC_LIMIT
      ensures CanStart(s, t, Enter(a, size), At(Entered(a, Units(size))))
    {
      var s' := Go(s, t, At(Entered(a, Units(size)))).(locks := s.locks[a := t]);
      Enters(s, t, a, size, s');
      Starts(s, t, Enter(a, size), s');
    }
    forall p: Ptr | Given(s, p) ensures exists pc: Pc :: CanStart(s, t, Free(p), pc) {
      var s' := Go(SetBlock(s, p.blk, Freed(s.blocks[p.blk], p.at, t)), t, AfterDecrement(s.blocks[p.blk], p.blk, Outside));
      Frees(s, t, p, s');
      Starts(s, t, Free(p), s');
    }
  }

  lemma Enters(s: State, t: Tid, a: Aid, size: nat, s': State)
    requires EnterStep(s, t, Enter(a, size), s')
    ensures Next(s, t, Enter(a, size), s')
  {
    hide EnterStep;
  }

  lemma Frees(s: State, t: Tid, p: Ptr, s': State)
    requires ClientStep(s, t, Free(p), s')
    ensures Next(s, t, Free(p), s')
  {
    hide ClientStep;
  }
}
