/** The small-block allocator: arenas that cut blocks into slices, blocks that return to a pool when
    their last reference goes, and mappings of many blocks that return to the system when all of their
    blocks are pooled. The steps of any number of threads over any number of arenas interleave.

    One step touches at most one thing that other threads may change at the same time: a reference
    count (atomic), or what the arena's or the pool's lock protects. The pool is a set of blocks: which
    of them is taken first plays no part. Memory is counted in units of 16 bytes. */
module Allocator {
  import opened Options

  type Tid = nat   // a thread
  type Aid = nat   // an arena
  type Mid = nat   // a mapping, by its address

  const START := 2         // the first unit after the block's header and list node
  const NODE := 1          // the unit of the list node
  const LIMIT := 2046      // units a block may be cut up to
  const BLOCKS := 256      // blocks of a mapping
  const LARGEST := 1024    // units of the largest small request
  const ALLOC_LIMIT := 16384  // a request of so many bytes is a large one

  datatype Bid = Bid(root: Mid, index: nat)
  datatype Ptr = Ptr(blk: Bid, at: nat)

  /** A slice, and the thread that is still on its way out of `fio_malloc` with it. */
  datatype Slice = Slice(len: nat, taker: Option<Tid>)

  /** The thread that found the block's count at 0, and whether it has wiped the block. */
  datatype Cleaner = NoOne | Cleans(t: Tid, wiped: bool)

  /** `ref` and `pos` are the header's; `mem` holds the units that may be other than zero. The rest is
      history: the slices that are out, the arena that counts in `ref`, who cleans the block, the units
      handed out since it was last wiped, and whether it was never used since it was mapped. */
  datatype Block = Block(ref: int, pos: nat, mem: map<nat, nat>, live: map<nat, Slice>,
                         owner: Option<Aid>, cleaner: Cleaner, handed: set<nat>, unused: bool)

  /** `rootRef` is the root block's; `pooled` are the blocks in the pool; `leaving` is the thread that
      gives the mapping back to the system. */
  datatype Mapping = Mapping(rootRef: int, pooled: set<nat>, leaving: Option<Tid>)

  /** How far a call of `fio_malloc` has come; it holds the arena's lock except `Outside`. */
  datatype Call =
    | Outside
    | Entered(arena: Aid, units: nat)
    | NeedBlock(arena: Aid, units: nat)
    | Ready(arena: Aid, units: nat)
    | Full(arena: Aid, ptr: Ptr)      // the slice used the block up
    | Emptied(arena: Aid, ptr: Ptr)   // the block was let go, the arena's pointer is still set
    | Leaving(arena: Aid, ptr: Ptr)
    | Failing(arena: Aid)

  /** Where a thread is: in the call, or inside a `block_free` the call made. */
  datatype Pc =
    | At(call: Call)
    | Wiping(blk: Bid, call: Call)
    | Wiped(blk: Bid, call: Call)
    | Unmapping(root: Mid, call: Call)

  datatype State = State(
    pcs: map<Tid, Pc>,
    locks: map<Aid, Tid>,
    arenas: map<Aid, Bid>,
    blocks: map<Bid, Block>,
    maps: map<Mid, Mapping>)

  function PcOf(s: State, t: Tid): Pc {
    if t in s.pcs then s.pcs[t] else At(Outside)
  }

  function Go(s: State, t: Tid, pc: Pc): State {
    s.(pcs := s.pcs[t := pc])
  }

  function SetBlock(s: State, b: Bid, k: Block): State {
    s.(blocks := s.blocks[b := k])
  }

  // ---------------------------------------------------------------------------------------------
  // What happens to a block

  /** The atomic decrement; the thread that reaches 0 will clean the block. */
  function Decremented(k: Block, t: Tid): Block {
    k.(ref := k.ref - 1, cleaner := if k.ref - 1 == 0 then Cleans(t, false) else k.cleaner)
  }

  function AfterDecrement(k: Block, b: Bid, call: Call): Pc {
    if k.ref - 1 == 0 then Wiping(b, call) else At(call)
  }

  /** The arena lets go of the block. */
  function Dropped(k: Block, t: Tid): Block {
    Decremented(k, t).(owner := None)
  }

  function Freed(k: Block, at: nat, t: Tid): Block {
    Decremented(k, t).(live := k.live - {at})
  }

  /** The units of a stretch. */
  function Stretch(at: nat, len: nat): (r: set<nat>)
    ensures forall u: nat :: u in r <==> at <= u < at + len
    ensures |r| == len
  {
    if len == 0 then {} else Stretch(at, len - 1) + {at + len - 1}
  }

  function Cut(k: Block, units: nat, t: Tid): Block {
    k.(ref := k.ref + 1, pos := k.pos + units, live := k.live[k.pos := Slice(units, Some(t))],
       handed := k.handed + Stretch(k.pos, units))
  }

  function Wipe(k: Block, t: Tid): Block {
    k.(mem := map[], cleaner := Cleans(t, true), handed := {})
  }

  /** Into the pool: the list node is written. */
  function Pooled(k: Block, link: nat): Block {
    k.(mem := k.mem[NODE := link], cleaner := NoOne)
  }

  /** Out of the pool: counts are set anew and the list node is zeroed. */
  function Inited(k: Block, a: Aid): Block {
    k.(ref := 1, pos := START, mem := k.mem - {NODE}, owner := Some(a), unused := false)
  }

  /** The blocks of a new mapping: the root goes to the arena, the others to the pool. */
  function NewBlock(a: Aid, root: bool, link: nat): Block {
    Block(1, START, if root then map[] else map[NODE := link], map[], if root then Some(a) else None, NoOne, {}, !root)
  }

  function NewBlocks(m: Mid, a: Aid, link: nat): (r: map<Bid, Block>)
    ensures forall b :: b in r <==> b.root == m && b.index < BLOCKS
    ensures forall b | b in r :: r[b] == NewBlock(a, b.index == 0, link)
  {
    var r := map i: nat | i < BLOCKS :: Bid(m, i) := NewBlock(a, i == 0, link);
    assert forall b: Bid | b.root == m && b.index < BLOCKS :: b == Bid(m, b.index);
    r
  }

  // ---------------------------------------------------------------------------------------------
  // What happens to a mapping

  /** A block joins the pool; with the last one the whole mapping leaves the pool. */
  function Returned(m: Mapping, index: nat, t: Tid): Mapping {
    if m.rootRef - 1 != 0 then Mapping(m.rootRef - 1, m.pooled + {index}, m.leaving) else Mapping(0, {}, Some(t))
  }

  function Taken(m: Mapping, index: nat): Mapping {
    m.(rootRef := m.rootRef + 1, pooled := m.pooled - {index})
  }

  function NewMapping(): Mapping {
    Mapping(1, Stretch(1, BLOCKS - 1), None)
  }

  // ---------------------------------------------------------------------------------------------
  // The steps

  datatype Action =
    | Enter(arena: Aid, size: nat) | Look | TakeSlice | Drop | Clear | Leave | LeaveEmpty
    | WipeBlock | GiveBack(link: nat) | Unmap | TakePooled(blk: Bid) | MapNew(root: Mid, link: nat) | MapFails
    | Free(ptr: Ptr) | Write(ptr: Ptr, at: nat, value: nat)

  /** The units that hold so many bytes. */
  function Units(size: nat): nat {
    size / 16 + if size % 16 != 0 then 1 else 0
  }

  ghost predicate Init(s: State) {
    s.pcs == map[] && s.locks == map[] && s.arenas == map[] && s.blocks == map[] && s.maps == map[]
  }

  /** `fio_malloc` of a small size takes an arena's lock and looks at the arena's block. */
  ghost predicate EnterStep(s: State, t: Tid, act: Action, s': State) {
    var pc, c := PcOf(s, t), PcOf(s, t).call;
    && pc.At?
    && match act
       case Enter(a, size) =>
         c.Outside? && a !in s.locks && 0 < size < ALLOC_LIMIT &&
         s' == Go(s, t, At(Entered(a, Units(size)))).(locks := s.locks[a := t])
       case Look =>
         c.Entered? &&
         if c.arena !in s.arenas then s' == Go(s, t, At(NeedBlock(c.arena, c.units)))
         else
           var b := s.arenas[c.arena];
           b in s.blocks &&
           if s.blocks[b].pos + c.units > LIMIT then
             s' == Go(SetBlock(s, b, Dropped(s.blocks[b], t)), t, AfterDecrement(s.blocks[b], b, NeedBlock(c.arena, c.units)))
           else s' == Go(s, t, At(Ready(c.arena, c.units)))
       case LeaveEmpty =>
         c.Failing? && s' == Go(s, t, At(Outside)).(locks := s.locks - {c.arena})
       case _ => false
  }

  /** `block_slice` cuts a slice off the block, and lets go of a block it has used up. */
  ghost predicate SliceStep(s: State, t: Tid, act: Action, s': State) {
    var pc, c := PcOf(s, t), PcOf(s, t).call;
    && pc.At?
    && match act
       case TakeSlice =>
         c.Ready? && c.arena in s.arenas &&
         var b := s.arenas[c.arena];
         b in s.blocks &&
         var k, p := s.blocks[b], Ptr(b, s.blocks[b].pos);
         s' == Go(SetBlock(s, b, Cut(k, c.units, t)), t, At(if k.pos + c.units >= LIMIT then Full(c.arena, p) else Leaving(c.arena, p)))
       case Drop =>
         c.Full? && c.ptr.blk in s.blocks &&
         s' == Go(SetBlock(s, c.ptr.blk, Dropped(s.blocks[c.ptr.blk], t)), t,
                  AfterDecrement(s.blocks[c.ptr.blk], c.ptr.blk, Emptied(c.arena, c.ptr)))
       case Clear =>
         c.Emptied? && s' == Go(s, t, At(Leaving(c.arena, c.ptr))).(arenas := s.arenas - {c.arena})
       case Leave =>
         c.Leaving? && c.ptr.blk in s.blocks && c.ptr.at in s.blocks[c.ptr.blk].live &&
         var k := s.blocks[c.ptr.blk];
         s' == Go(SetBlock(s, c.ptr.blk, k.(live := k.live[c.ptr.at := k.live[c.ptr.at].(taker := None)])), t, At(Outside))
               .(locks := s.locks - {c.arena})
       case _ => false
  }

  /** The end of `block_free`: the block is wiped, then under the pool's lock it joins the pool, and
      the mapping whose last block that was leaves the pool and then the process. */
  ghost predicate CleanStep(s: State, t: Tid, act: Action, s': State) {
    var pc := PcOf(s, t);
    match act
    case WipeBlock =>
      pc.Wiping? && pc.blk in s.blocks && s' == Go(SetBlock(s, pc.blk, Wipe(s.blocks[pc.blk], t)), t, Wiped(pc.blk, pc.call))
    case GiveBack(link) =>
      pc.Wiped? && pc.blk in s.blocks && pc.blk.root in s.maps &&
      var m := s.maps[pc.blk.root];
      s' == Go(SetBlock(s, pc.blk, Pooled(s.blocks[pc.blk], link)), t,
               if m.rootRef - 1 != 0 then At(pc.call) else Unmapping(pc.blk.root, pc.call))
            .(maps := s.maps[pc.blk.root := Returned(m, pc.blk.index, t)])
    case Unmap =>
      pc.Unmapping? &&
      s' == Go(s, t, At(pc.call)).(maps := s.maps - {pc.root}, blocks := map b | b in s.blocks && b.root != pc.root :: s.blocks[b])
    case _ => false
  }

  ghost predicate PoolEmpty(s: State) {
    forall m | m in s.maps :: s.maps[m].pooled == {}
  }

  /** `block_new`, under the pool's lock: a pooled block, or a new mapping when there is none. */
  ghost predicate NewStep(s: State, t: Tid, act: Action, s': State) {
    var c := PcOf(s, t).call;
    && PcOf(s, t).At? && c.NeedBlock?
    && match act
       case TakePooled(b) =>
         b in s.blocks && b.root in s.maps && b.index in s.maps[b.root].pooled &&
         var m := s.maps[b.root];
         s' == Go(SetBlock(s, b, Inited(s.blocks[b], c.arena)), t, At(Ready(c.arena, c.units)))
               .(maps := s.maps[b.root := Taken(m, b.index)],
                 arenas := s.arenas[c.arena := b])
       case MapNew(m, link) =>
         PoolEmpty(s) && m !in s.maps &&
         s' == Go(s, t, At(Ready(c.arena, c.units)))
               .(maps := s.maps[m := NewMapping()],
                 blocks := s.blocks + NewBlocks(m, c.arena, link), arenas := s.arenas[c.arena := Bid(m, 0)])
       case MapFails =>
         PoolEmpty(s) && s' == Go(s, t, At(Failing(c.arena))).(arenas := s.arenas - {c.arena})
       case _ => false
  }

  /** The program frees a slice it was given, or writes inside one. */
  ghost predicate ClientStep(s: State, t: Tid, act: Action, s': State) {
    && PcOf(s, t) == At(Outside)
    && match act
       case Free(p) =>
         Given(s, p) &&
         s' == Go(SetBlock(s, p.blk, Freed(s.blocks[p.blk], p.at, t)), t, AfterDecrement(s.blocks[p.blk], p.blk, Outside))
       case Write(p, u, value) =>
         Given(s, p) && p.at <= u < p.at + s.blocks[p.blk].live[p.at].len &&
         s' == SetBlock(s, p.blk, s.blocks[p.blk].(mem := s.blocks[p.blk].mem[u := value]))
       case _ => false
  }

  /** A slice that `fio_malloc` has returned and that is not freed. */
  predicate Given(s: State, p: Ptr) {
    p.blk in s.blocks && p.at in s.blocks[p.blk].live && s.blocks[p.blk].live[p.at].taker == None
  }

  ghost predicate Next(s: State, t: Tid, act: Action, s': State) {
    || EnterStep(s, t, act, s') || SliceStep(s, t, act, s')
    || CleanStep(s, t, act, s') || NewStep(s, t, act, s') || ClientStep(s, t, act, s')
  }

  // ---------------------------------------------------------------------------------------------
  // The invariant of a block

  /** Slices lie between the header and the cutting position. */
  ghost predicate Fits(k: Block) {
    forall x | x in k.live :: START <= x && 1 <= k.live[x].len && x + k.live[x].len <= k.pos
  }

  /** Slices do not overlap. */
  ghost predicate Apart(k: Block) {
    forall x, y | x in k.live && y in k.live && x < y :: x + k.live[x].len <= y
  }

  /** A slice that is not yet given is all zero. */
  ghost predicate StillZero(k: Block) {
    forall x, u | x in k.live && k.live[x].taker.Some? && x <= u < x + k.live[x].len :: u !in k.mem
  }

  function Owners(k: Block): nat {
    if k.owner.Some? then 1 else 0
  }

  /** The count is the owning arena plus the slices that are out. */
  predicate RefCounts(k: Block) {
    k.ref == Owners(k) + |k.live|
  }

  /** A block outside the pool. */
  ghost predicate InUse(k: Block) {
    && !k.unused && RefCounts(k) && (k.ref == 0 <==> k.cleaner.Cleans?)
    && (forall u | u in k.mem :: START <= u < k.pos)
    && (forall u | u in k.handed :: START <= u < k.pos)
    && (k.cleaner.Cleans? && k.cleaner.wiped ==> k.mem == map[] && k.handed == {})
  }

  /** A block in the pool, or of a mapping on its way out. */
  ghost predicate AtRest(k: Block) {
    && k.live == map[] && k.owner == None && k.cleaner == NoOne && k.handed == {}
    && k.ref == (if k.unused then 1 else 0) && (forall u | u in k.mem :: u == NODE)
  }

  ghost predicate BlockOk(k: Block, out: bool) {
    && START <= k.pos <= LIMIT && Fits(k) && Apart(k) && StillZero(k)
    && if out then InUse(k) else AtRest(k)
  }

  lemma CutKeepsApart(k: Block, units: nat, t: Tid)
    requires Fits(k) && Apart(k) && START <= k.pos && 1 <= units
    ensures Fits(Cut(k, units, t)) && Apart(Cut(k, units, t))
  {
  }

  lemma CutKeepsZero(k: Block, units: nat, t: Tid)
    requires Fits(k) && StillZero(k) && forall u | u in k.mem :: u < k.pos
    ensures StillZero(Cut(k, units, t))
  {
  }

  lemma CutKeeps(k: Block, units: nat, t: Tid)
    requires BlockOk(k, true) && k.owner.Some? && 1 <= units && k.pos + units <= LIMIT
    ensures BlockOk(Cut(k, units, t), true)
  {
    CutKeepsApart(k, units, t);
    CutKeepsZero(k, units, t);
    assert k.pos !in k.live;
    assert InUse(Cut(k, units, t));
  }

  lemma WipeKeeps(k: Block, t: Tid)
    requires BlockOk(k, true) && k.cleaner.Cleans?
    ensures BlockOk(Wipe(k, t), true)
  {
  }

  lemma NewBlockOk(a: Aid, root: bool, link: nat)
    ensures BlockOk(NewBlock(a, root, link), root)
  {
  }

  lemma DropKeeps(k: Block, t: Tid)
    requires BlockOk(k, true) && k.owner.Some?
    ensures BlockOk(Dropped(k, t), true)
  {
  }

  lemma FreeKeeps(k: Block, at: nat, t: Tid)
    requires BlockOk(k, true) && at in k.live
    ensures BlockOk(Freed(k, at, t), true)
  {
    assert k.live == (k.live - {at})[at := k.live[at]];
  }

  lemma WriteKeeps(k: Block, at: nat, u: nat, value: nat)
    requires BlockOk(k, true) && at in k.live && k.live[at].taker == None && at <= u < at + k.live[at].len
    ensures BlockOk(k.(mem := k.mem[u := value]), true)
  {
  }

  lemma LeaveKeeps(k: Block, at: nat)
    requires BlockOk(k, true) && at in k.live
    ensures BlockOk(k.(live := k.live[at := k.live[at].(taker := None)]), true)
  {
  }

  lemma InitKeeps(k: Block, a: Aid)
    requires BlockOk(k, false)
    ensures BlockOk(Inited(k, a), true)
  {
  }

  lemma PoolKeeps(k: Block, link: nat)
    requires BlockOk(k, true) && k.cleaner.Cleans? && k.cleaner.wiped
    ensures BlockOk(Pooled(k, link), false)
  {
  }

  // ---------------------------------------------------------------------------------------------
  // The invariant of a mapping

  /** The root's count is the number of blocks outside the pool. */
  ghost predicate MapOk(m: Mapping) {
    && (forall i | i in m.pooled :: i < BLOCKS)
    && m.rootRef == (if m.leaving == None then BLOCKS - |m.pooled| else 0)
    && (m.leaving == None <==> m.rootRef > 0)
    && (m.leaving != None ==> m.pooled == {})
  }

  /** As many different blocks as the mapping has are all of its blocks. */
  lemma {:induction false} AllOf(pooled: set<nat>, n: nat)
    requires (forall i | i in pooled :: i < n) && |pooled| == n
    ensures forall i: nat | i < n :: i in pooled
    decreases n
  {
    if n > 0 {
      if n - 1 in pooled {
        var rest := pooled - {n - 1};
        AllOf(rest, n - 1);
        forall i: nat | i < n ensures i in pooled {
          assert i < n - 1 ==> i in rest;
        }
      } else {
        Fewer(pooled, n - 1);
      }
    }
  }

  lemma {:induction false} Fewer(pooled: set<nat>, n: nat)
    requires forall i | i in pooled :: i < n
    ensures |pooled| <= n
    decreases n
  {
    if n == 0 {
      assert pooled == {};
    } else {
      Fewer(pooled - {n - 1}, n - 1);
    }
  }

  /** A mapping that leaves the pool had all of its blocks in it. */
  lemma ReturnKeeps(m: Mapping, index: nat, t: Tid)
    requires MapOk(m) && m.leaving == None && index < BLOCKS && index !in m.pooled
    ensures MapOk(Returned(m, index, t))
    ensures Returned(m, index, t).leaving != None ==> forall i: nat | i < BLOCKS :: i in m.pooled || i == index
  {
    if m.rootRef == 1 {
      AllOf(m.pooled + {index}, BLOCKS);
    }
  }

  lemma TakeKeeps(m: Mapping, index: nat)
    requires MapOk(m) && m.leaving == None && index in m.pooled
    ensures MapOk(Taken(m, index))
  {
    assert m.pooled == (m.pooled - {index}) + {index};
  }

  lemma NewKeeps()
    ensures MapOk(NewMapping())
  {
  }

  // ---------------------------------------------------------------------------------------------
  // The invariant

  ghost predicate Holds(c: Call, a: Aid) {
    !c.Outside? && c.arena == a
  }

  /** The block that the thread has taken out of reference and must clean. */
  predicate Cleaning(pc: Pc, b: Bid) {
    (pc.Wiping? || pc.Wiped?) && pc.blk == b
  }

  predicate LetGo(c: Call) {
    c.NeedBlock? || c.Emptied?
  }

  /** The arena refers to the block and counts in its `ref`. */
  ghost predicate Owns(s: State, a: Aid, b: Bid) {
    a in s.arenas && s.arenas[a] == b && (a in s.locks ==> !LetGo(PcOf(s, s.locks[a]).call))
  }

  ghost predicate Out(s: State, b: Bid) {
    b.root in s.maps && s.maps[b.root].leaving == None && b.index !in s.maps[b.root].pooled
  }

  ghost predicate LockAt(s: State, t: Tid, a: Aid) {
    Holds(PcOf(s, t).call, a) <==> a in s.locks && s.locks[a] == t
  }

  ghost predicate OwnAt(s: State, a: Aid, b: Bid) {
    Owns(s, a, b) <==> b in s.blocks && s.blocks[b].owner == Some(a)
  }

  ghost predicate CleanAt(s: State, t: Tid, b: Bid) {
    && (Cleaning(PcOf(s, t), b) <==> b in s.blocks && s.blocks[b].cleaner.Cleans? && s.blocks[b].cleaner.t == t)
    && (Cleaning(PcOf(s, t), b) && b in s.blocks && s.blocks[b].cleaner.Cleans? ==>
          (s.blocks[b].cleaner.wiped <==> PcOf(s, t).Wiped?))
  }

  ghost predicate BlockAt(s: State, b: Bid) {
    && (b in s.blocks <==> b.root in s.maps && b.index < BLOCKS)
    && (b in s.blocks ==> BlockOk(s.blocks[b], Out(s, b)))
  }

  ghost predicate MapAt(s: State, m: Mid) {
    m in s.maps ==> MapOk(s.maps[m])
  }

  ghost predicate UnmapAt(s: State, t: Tid, m: Mid) {
    PcOf(s, t).Unmapping? && PcOf(s, t).root == m <==> m in s.maps && s.maps[m].leaving == Some(t)
  }

  /** A slice is on its way out with the thread. */
  ghost predicate Carried(s: State, t: Tid, p: Ptr) {
    p.blk in s.blocks && p.at in s.blocks[p.blk].live && s.blocks[p.blk].live[p.at].taker == Some(t)
  }

  /** What a thread knows at its place in `fio_malloc`. */
  ghost predicate CallAt(s: State, t: Tid) {
    match PcOf(s, t).call
    case Outside => true
    case Entered(a, units) => 1 <= units <= LARGEST
    case NeedBlock(a, units) => 1 <= units <= LARGEST
    case Ready(a, units) =>
      && 1 <= units <= LARGEST && a in s.arenas && s.arenas[a] in s.blocks
      && s.blocks[s.arenas[a]].owner == Some(a) && s.blocks[s.arenas[a]].pos + units <= LIMIT
    case Full(a, p) => Carried(s, t, p) && a in s.arenas && s.arenas[a] == p.blk
    case Emptied(a, p) => Carried(s, t, p)
    case Leaving(a, p) => Carried(s, t, p)
    case Failing(a) => true
  }

  ghost predicate InvAt(s: State, t: Tid, a: Aid, b: Bid) {
    && LockAt(s, t, a) && OwnAt(s, a, b) && CleanAt(s, t, b) && BlockAt(s, b) && MapAt(s, b.root)
    && UnmapAt(s, t, b.root) && CallAt(s, t)
  }

  ghost predicate Inv(s: State) {
    forall t: Tid, a: Aid, b: Bid :: InvAt(s, t, a, b)
  }

  // ---------------------------------------------------------------------------------------------
  // Every step keeps it

  function ArenaOf(c: Call): Aid {
    if c.Outside? then 0 else c.arena
  }

  /** The block a step works on. */
  function BlockOf(s: State, t: Tid, act: Action): Bid {
    var pc := PcOf(s, t);
    match act
    case TakePooled(b) => b
    case MapNew(m, _) => Bid(m, 0)
    case Free(p) => p.blk
    case Write(p, _, _) => p.blk
    case _ =>
      if pc.Wiping? || pc.Wiped? then pc.blk
      else if pc.Unmapping? then Bid(pc.root, 0)
      else if pc.call.Full? || pc.call.Emptied? || pc.call.Leaving? then pc.call.ptr.blk
      else if ArenaOf(pc.call) in s.arenas then s.arenas[ArenaOf(pc.call)] else Bid(0, 0)
  }

  /** The part of a block's invariant that the links between threads, arenas and blocks need. */
  ghost predicate Quiet(s: State, b: Bid) {
    && (b in s.blocks <==> b.root in s.maps && b.index < BLOCKS)
    && (b in s.blocks ==>
          && (s.blocks[b].cleaner.Cleans? ==> s.blocks[b].ref == 0 && s.blocks[b].owner == None && s.blocks[b].live == map[])
          && (!Out(s, b) ==> s.blocks[b].owner == None && s.blocks[b].cleaner == NoOne && s.blocks[b].live == map[]))
  }

  lemma IsQuiet(s: State, b: Bid)
    requires BlockAt(s, b)
    ensures Quiet(s, b)
  {
  }

  /** The links between the thread, the arena and the block. */
  ghost predicate LinkAt(s: State, t: Tid, a: Aid, b: Bid) {
    LockAt(s, t, a) && OwnAt(s, a, b) && CleanAt(s, t, b) && Quiet(s, b) && CallAt(s, t) && UnmapAt(s, t, b.root)
  }

  ghost predicate Links(s: State, t: Tid, act: Action, u: Tid, a: Aid, b: Bid) {
    var mine, yours, f := ArenaOf(PcOf(s, t).call), ArenaOf(PcOf(s, u).call), BlockOf(s, t, act);
    && LinkAt(s, t, a, b) && LinkAt(s, u, a, b) && LinkAt(s, t, mine, f) && LinkAt(s, u, mine, f) && LinkAt(s, t, mine, b)
    && LinkAt(s, t, yours, b) && LinkAt(s, u, yours, f) && LinkAt(s, t, a, f)
  }

  lemma EnterKeepsLock(s: State, t: Tid, act: Action, s': State, u: Tid, a: Aid, b: Bid)
    requires EnterStep(s, t, act, s') && Links(s, t, act, u, a, b)
    ensures LockAt(s', u, a)
  {
  }

  lemma SliceKeepsLock(s: State, t: Tid, act: Action, s': State, u: Tid, a: Aid, b: Bid)
    requires SliceStep(s, t, act, s') && Links(s, t, act, u, a, b)
    ensures LockAt(s', u, a)
  {
  }

  lemma EnterKeepsOwn(s: State, t: Tid, act: Action, s': State, u: Tid, a: Aid, b: Bid)
    requires EnterStep(s, t, act, s') && Links(s, t, act, u, a, b)
    ensures OwnAt(s', a, b)
  {
  }

  lemma SliceKeepsOwn(s: State, t: Tid, act: Action, s': State, u: Tid, a: Aid, b: Bid)
    requires SliceStep(s, t, act, s') && Links(s, t, act, u, a, b)
    ensures OwnAt(s', a, b)
  {
  }

  lemma EnterKeepsClean(s: State, t: Tid, act: Action, s': State, u: Tid, a: Aid, b: Bid)
    requires EnterStep(s, t, act, s') && Links(s, t, act, u, a, b)
    ensures CleanAt(s', u, b)
  {
  }

  lemma SliceKeepsClean(s: State, t: Tid, act: Action, s': State, u: Tid, a: Aid, b: Bid)
    requires SliceStep(s, t, act, s') && Links(s, t, act, u, a, b)
    ensures CleanAt(s', u, b)
  {
  }

  lemma CleanKeepsLock(s: State, t: Tid, act: Action, s': State, u: Tid, a: Aid, b: Bid)
    requires CleanStep(s, t, act, s') && Links(s, t, act, u, a, b)
    ensures LockAt(s', u, a)
  {
  }

  lemma CleanKeepsOwn(s: State, t: Tid, act: Action, s': State, u: Tid, a: Aid, b: Bid)
    requires CleanStep(s, t, act, s') && Links(s, t, act, u, a, b)
    ensures OwnAt(s', a, b)
  {
  }

  lemma CleanKeepsClean(s: State, t: Tid, act: Action, s': State, u: Tid, a: Aid, b: Bid)
    requires CleanStep(s, t, act, s') && Links(s, t, act, u, a, b)
    ensures CleanAt(s', u, b)
  {
  }

  lemma NewKeepsLock(s: State, t: Tid, act: Action, s': State, u: Tid, a: Aid, b: Bid)
    requires NewStep(s, t, act, s') && Links(s, t, act, u, a, b)
    ensures LockAt(s', u, a)
  {
  }

  lemma NewKeepsOwn(s: State, t: Tid, act: Action, s': State, u: Tid, a: Aid, b: Bid)
    requires NewStep(s, t, act, s') && Links(s, t, act, u, a, b)
    ensures OwnAt(s', a, b)
  {
  }

  lemma NewKeepsClean(s: State, t: Tid, act: Action, s': State, u: Tid, a: Aid, b: Bid)
    requires NewStep(s, t, act, s') && Links(s, t, act, u, a, b)
    ensures CleanAt(s', u, b)
  {
  }

  lemma ClientKeepsLock(s: State, t: Tid, act: Action, s': State, u: Tid, a: Aid, b: Bid)
    requires ClientStep(s, t, act, s') && Links(s, t, act, u, a, b)
    ensures LockAt(s', u, a)
  {
  }

  lemma ClientKeepsOwn(s: State, t: Tid, act: Action, s': State, u: Tid, a: Aid, b: Bid)
    requires ClientStep(s, t, act, s') && Links(s, t, act, u, a, b)
    ensures OwnAt(s', a, b)
  {
  }

  lemma ClientKeepsClean(s: State, t: Tid, act: Action, s': State, u: Tid, a: Aid, b: Bid)
    requires ClientStep(s, t, act, s') && Links(s, t, act, u, a, b)
    ensures CleanAt(s', u, b)
  {
  }

  /** The block a call of `fio_malloc` is at. */
  function CallBlock(s: State, c: Call): Bid {
    if c.Full? || c.Emptied? || c.Leaving? then c.ptr.blk
    else if ArenaOf(c) in s.arenas then s.arenas[ArenaOf(c)] else Bid(0, 0)
  }

  /** The links at the block the other thread's call is at. */
  ghost predicate LinksThere(s: State, t: Tid, act: Action, u: Tid) {
    var mine, yours, f, g := ArenaOf(PcOf(s, t).call), ArenaOf(PcOf(s, u).call), BlockOf(s, t, act), CallBlock(s, PcOf(s, u).call);
    && LinkAt(s, t, mine, f) && LinkAt(s, u, yours, g) && LinkAt(s, t, yours, g) && LinkAt(s, t, mine, g) && LinkAt(s, t, yours, f)
    && UnmapAt(s, t, g.root)
    && (f in s.blocks ==> Fits(s.blocks[f]))
  }

  lemma EnterKeepsOwnCall(s: State, t: Tid, act: Action, s': State)
    requires EnterStep(s, t, act, s') && LinksThere(s, t, act, t)
    ensures CallAt(s', t)
  {
  }

  lemma SliceKeepsOwnCall(s: State, t: Tid, act: Action, s': State)
    requires SliceStep(s, t, act, s') && LinksThere(s, t, act, t)
    ensures CallAt(s', t)
  {
  }

  lemma EnterKeepsOtherReady(s: State, t: Tid, act: Action, s': State, u: Tid)
    requires EnterStep(s, t, act, s') && LinksThere(s, t, act, u) && u != t && PcOf(s, u).call.Ready?
    ensures CallAt(s', u)
  {
  }

  lemma SliceKeepsOtherReady(s: State, t: Tid, act: Action, s': State, u: Tid)
    requires SliceStep(s, t, act, s') && LinksThere(s, t, act, u) && u != t && PcOf(s, u).call.Ready?
    ensures CallAt(s', u)
  {
  }

  /** A slice on its way out with one thread stays so whatever another thread does. */
  lemma EnterKeepsCarried(s: State, t: Tid, act: Action, s': State, u: Tid, p: Ptr)
    requires EnterStep(s, t, act, s') && u != t && Carried(s, u, p) && CallAt(s, t)
    requires var f := BlockOf(s, t, act); f in s.blocks ==> Fits(s.blocks[f])
    ensures Carried(s', u, p)
  {
  }

  /** A slice on its way out with one thread stays so whatever another thread does. */
  lemma SliceKeepsCarried(s: State, t: Tid, act: Action, s': State, u: Tid, p: Ptr)
    requires SliceStep(s, t, act, s') && u != t && Carried(s, u, p) && CallAt(s, t)
    requires var f := BlockOf(s, t, act); f in s.blocks ==> Fits(s.blocks[f])
    ensures Carried(s', u, p)
  {
  }

  lemma EnterKeepsOtherCarried(s: State, t: Tid, act: Action, s': State, u: Tid)
    requires EnterStep(s, t, act, s') && LinksThere(s, t, act, u) && u != t
    requires PcOf(s, u).call.Full? || PcOf(s, u).call.Emptied? || PcOf(s, u).call.Leaving?
    ensures CallAt(s', u)
  {
    EnterKeepsCarried(s, t, act, s', u, PcOf(s, u).call.ptr);
    assert PcOf(s', u) == PcOf(s, u);
    assert LockAt(s, u, PcOf(s, u).call.arena) && LockAt(s, t, PcOf(s, u).call.arena);
  }

  lemma SliceKeepsOtherCarried(s: State, t: Tid, act: Action, s': State, u: Tid)
    requires SliceStep(s, t, act, s') && LinksThere(s, t, act, u) && u != t
    requires PcOf(s, u).call.Full? || PcOf(s, u).call.Emptied? || PcOf(s, u).call.Leaving?
    ensures CallAt(s', u)
  {
    SliceKeepsCarried(s, t, act, s', u, PcOf(s, u).call.ptr);
    assert PcOf(s', u) == PcOf(s, u);
    assert LockAt(s, u, PcOf(s, u).call.arena) && LockAt(s, t, PcOf(s, u).call.arena);
  }

  lemma EnterKeepsOtherCall(s: State, t: Tid, act: Action, s': State, u: Tid)
    requires EnterStep(s, t, act, s') && LinksThere(s, t, act, u) && u != t
    ensures CallAt(s', u)
  {
    var c := PcOf(s, u).call;
    if c.Ready? {
      EnterKeepsOtherReady(s, t, act, s', u);
    } else if c.Full? || c.Emptied? || c.Leaving? {
      EnterKeepsOtherCarried(s, t, act, s', u);
    }
  }

  lemma SliceKeepsOtherCall(s: State, t: Tid, act: Action, s': State, u: Tid)
    requires SliceStep(s, t, act, s') && LinksThere(s, t, act, u) && u != t
    ensures CallAt(s', u)
  {
    var c := PcOf(s, u).call;
    if c.Ready? {
      SliceKeepsOtherReady(s, t, act, s', u);
    } else if c.Full? || c.Emptied? || c.Leaving? {
      SliceKeepsOtherCarried(s, t, act, s', u);
    }
  }

  lemma CleanKeepsOwnCall(s: State, t: Tid, act: Action, s': State)
    requires CleanStep(s, t, act, s') && LinksThere(s, t, act, t)
    ensures CallAt(s', t)
  {
  }

  lemma CleanKeepsOtherCall(s: State, t: Tid, act: Action, s': State, u: Tid)
    requires CleanStep(s, t, act, s') && LinksThere(s, t, act, u) && u != t
    ensures CallAt(s', u)
  {
  }

  lemma NewKeepsOwnCall(s: State, t: Tid, act: Action, s': State)
    requires NewStep(s, t, act, s') && LinksThere(s, t, act, t)
    ensures CallAt(s', t)
  {
  }

  lemma NewKeepsOtherCall(s: State, t: Tid, act: Action, s': State, u: Tid)
    requires NewStep(s, t, act, s') && LinksThere(s, t, act, u) && u != t
    ensures CallAt(s', u)
  {
  }

  lemma ClientKeepsOwnCall(s: State, t: Tid, act: Action, s': State)
    requires ClientStep(s, t, act, s') && LinksThere(s, t, act, t)
    ensures CallAt(s', t)
  {
  }

  lemma ClientKeepsOtherCall(s: State, t: Tid, act: Action, s': State, u: Tid)
    requires ClientStep(s, t, act, s') && LinksThere(s, t, act, u) && u != t
    ensures CallAt(s', u)
  {
  }

  lemma EnterKeepsUnmap(s: State, t: Tid, act: Action, s': State, u: Tid, m: Mid)
    requires EnterStep(s, t, act, s') && UnmapAt(s, u, m) && UnmapAt(s, t, m)
    requires var f := BlockOf(s, t, act); Quiet(s, f) && CleanAt(s, t, f)
    ensures UnmapAt(s', u, m)
  {
  }

  lemma SliceKeepsUnmap(s: State, t: Tid, act: Action, s': State, u: Tid, m: Mid)
    requires SliceStep(s, t, act, s') && UnmapAt(s, u, m) && UnmapAt(s, t, m)
    requires var f := BlockOf(s, t, act); Quiet(s, f) && CleanAt(s, t, f)
    ensures UnmapAt(s', u, m)
  {
  }

  lemma CleanKeepsUnmap(s: State, t: Tid, act: Action, s': State, u: Tid, m: Mid)
    requires CleanStep(s, t, act, s') && UnmapAt(s, u, m) && UnmapAt(s, t, m)
    requires var f := BlockOf(s, t, act); Quiet(s, f) && CleanAt(s, t, f)
    ensures UnmapAt(s', u, m)
  {
  }

  lemma NewKeepsUnmap(s: State, t: Tid, act: Action, s': State, u: Tid, m: Mid)
    requires NewStep(s, t, act, s') && UnmapAt(s, u, m) && UnmapAt(s, t, m)
    requires var f := BlockOf(s, t, act); Quiet(s, f) && CleanAt(s, t, f)
    ensures UnmapAt(s', u, m)
  {
  }

  lemma ClientKeepsUnmap(s: State, t: Tid, act: Action, s': State, u: Tid, m: Mid)
    requires ClientStep(s, t, act, s') && UnmapAt(s, u, m) && UnmapAt(s, t, m)
    requires var f := BlockOf(s, t, act); Quiet(s, f) && CleanAt(s, t, f)
    ensures UnmapAt(s', u, m)
  {
  }

  lemma CleanKeepsMap(s: State, t: Tid, act: Action, s': State, m: Mid)
    requires CleanStep(s, t, act, s') && MapAt(s, m)
    requires var f := BlockOf(s, t, act); Quiet(s, f) && CleanAt(s, t, f)
    ensures MapAt(s', m)
  {
    if act.GiveBack? && PcOf(s, t).blk.root == m {
      ReturnKeeps(s.maps[m], PcOf(s, t).blk.index, t);
    }
  }

  lemma NewKeepsMap(s: State, t: Tid, act: Action, s': State, m: Mid)
    requires NewStep(s, t, act, s') && MapAt(s, m)
    ensures MapAt(s', m)
  {
    if act.TakePooled? && act.blk.root == m {
      TakeKeeps(s.maps[m], act.blk.index);
    }
    if act.MapNew? && act.root == m {
      NewKeeps();
    }
  }

  lemma EnterKeepsBlock(s: State, t: Tid, act: Action, s': State, b: Bid)
    requires EnterStep(s, t, act, s') && BlockAt(s, b) && CallAt(s, t)
    requires var a := ArenaOf(PcOf(s, t).call); OwnAt(s, a, b) && LockAt(s, t, a)
    ensures BlockAt(s', b)
  {
    var c := PcOf(s, t).call;
    assert Out(s', b) == Out(s, b);
    if b in s.blocks && BlockOf(s, t, act) == b && act.Look? {
      if s.blocks[b].owner.Some? { DropKeeps(s.blocks[b], t); }
    }
  }

  lemma SliceKeepsBlock(s: State, t: Tid, act: Action, s': State, b: Bid)
    requires SliceStep(s, t, act, s') && BlockAt(s, b) && CallAt(s, t)
    requires var a := ArenaOf(PcOf(s, t).call); OwnAt(s, a, b) && LockAt(s, t, a)
    ensures BlockAt(s', b)
  {
    var c := PcOf(s, t).call;
    assert Out(s', b) == Out(s, b);
    if b in s.blocks && BlockOf(s, t, act) == b {
      match act
      case Drop => if s.blocks[b].owner.Some? { DropKeeps(s.blocks[b], t); }
      case TakeSlice => CutKeeps(s.blocks[b], c.units, t);
      case Leave => LeaveKeeps(s.blocks[b], c.ptr.at);
      case _ =>
    }
  }

  lemma CleanKeepsBlock(s: State, t: Tid, act: Action, s': State, b: Bid)
    requires CleanStep(s, t, act, s') && BlockAt(s, b) && MapAt(s, b.root)
    requires var f := BlockOf(s, t, act); CleanAt(s, t, f) && BlockAt(s, f) && UnmapAt(s, t, f.root)
    ensures BlockAt(s', b)
  {
    var pc := PcOf(s, t);
    match act
    case WipeBlock =>
      if pc.blk == b { WipeKeeps(s.blocks[b], t); }
    case GiveBack(link) =>
      if pc.blk.root == b.root { ReturnKeeps(s.maps[b.root], pc.blk.index, t); }
      if pc.blk == b { PoolKeeps(s.blocks[b], link); }
    case _ =>
  }

  lemma MapKeepsBlock(s: State, t: Tid, act: Action, s': State, b: Bid)
    requires NewStep(s, t, act, s') && act.MapNew? && BlockAt(s, b)
    ensures BlockAt(s', b)
  {
    var a := PcOf(s, t).call.arena;
    if b.root == act.root {
      assert Out(s', b) <==> b.index !in Stretch(1, BLOCKS - 1);
      NewBlockOk(a, b.index == 0, act.link);
    } else {
      assert Out(s', b) == Out(s, b);
    }
  }

  lemma TakeKeepsBlock(s: State, t: Tid, act: Action, s': State, b: Bid)
    requires NewStep(s, t, act, s') && !act.MapNew? && BlockAt(s, b) && MapAt(s, b.root)
    ensures BlockAt(s', b)
  {
    if act == TakePooled(b) {
      InitKeeps(s.blocks[b], PcOf(s, t).call.arena);
    } else {
      assert Out(s', b) == Out(s, b);
    }
  }

  lemma ClientKeepsBlock(s: State, t: Tid, act: Action, s': State, b: Bid)
    requires ClientStep(s, t, act, s') && BlockAt(s, b)
    ensures BlockAt(s', b)
  {
    assert Out(s', b) == Out(s, b);
    if b in s.blocks {
      match act
      case Free(p) =>
        if p.blk == b { FreeKeeps(s.blocks[b], p.at, t); }
      case Write(p, u, value) =>
        if p.blk == b { WriteKeeps(s.blocks[b], p.at, u, value); }
    }
  }

  // ---------------------------------------------------------------------------------------------
  // Every reachable state

  lemma StepKeepsLock(s: State, t: Tid, act: Action, s': State, u: Tid, a: Aid, b: Bid)
    requires Next(s, t, act, s') && Links(s, t, act, u, a, b)
    ensures LockAt(s', u, a)
  {
    hide EnterStep, SliceStep, CleanStep, NewStep, ClientStep, Links, LinksThere;
    if EnterStep(s, t, act, s') { EnterKeepsLock(s, t, act, s', u, a, b); }
    else if SliceStep(s, t, act, s') { SliceKeepsLock(s, t, act, s', u, a, b); }
    else if CleanStep(s, t, act, s') { CleanKeepsLock(s, t, act, s', u, a, b); }
    else if NewStep(s, t, act, s') { NewKeepsLock(s, t, act, s', u, a, b); }
    else { ClientKeepsLock(s, t, act, s', u, a, b); }
  }

  lemma StepKeepsOwn(s: State, t: Tid, act: Action, s': State, u: Tid, a: Aid, b: Bid)
    requires Next(s, t, act, s') && Links(s, t, act, u, a, b)
    ensures OwnAt(s', a, b)
  {
    hide EnterStep, SliceStep, CleanStep, NewStep, ClientStep, Links, LinksThere;
    if EnterStep(s, t, act, s') { EnterKeepsOwn(s, t, act, s', u, a, b); }
    else if SliceStep(s, t, act, s') { SliceKeepsOwn(s, t, act, s', u, a, b); }
    else if CleanStep(s, t, act, s') { CleanKeepsOwn(s, t, act, s', u, a, b); }
    else if NewStep(s, t, act, s') { NewKeepsOwn(s, t, act, s', u, a, b); }
    else { ClientKeepsOwn(s, t, act, s', u, a, b); }
  }

  lemma StepKeepsClean(s: State, t: Tid, act: Action, s': State, u: Tid, a: Aid, b: Bid)
    requires Next(s, t, act, s') && Links(s, t, act, u, a, b)
    ensures CleanAt(s', u, b)
  {
    hide EnterStep, SliceStep, CleanStep, NewStep, ClientStep, Links, LinksThere;
    if EnterStep(s, t, act, s') { EnterKeepsClean(s, t, act, s', u, a, b); }
    else if SliceStep(s, t, act, s') { SliceKeepsClean(s, t, act, s', u, a, b); }
    else if CleanStep(s, t, act, s') { CleanKeepsClean(s, t, act, s', u, a, b); }
    else if NewStep(s, t, act, s') { NewKeepsClean(s, t, act, s', u, a, b); }
    else { ClientKeepsClean(s, t, act, s', u, a, b); }
  }

  lemma StepKeepsOwnCall(s: State, t: Tid, act: Action, s': State)
    requires Next(s, t, act, s') && LinksThere(s, t, act, t)
    ensures CallAt(s', t)
  {
    hide EnterStep, SliceStep, CleanStep, NewStep, ClientStep, Links, LinksThere;
    if EnterStep(s, t, act, s') { EnterKeepsOwnCall(s, t, act, s'); }
    else if SliceStep(s, t, act, s') { SliceKeepsOwnCall(s, t, act, s'); }
    else if CleanStep(s, t, act, s') { CleanKeepsOwnCall(s, t, act, s'); }
    else if NewStep(s, t, act, s') { NewKeepsOwnCall(s, t, act, s'); }
    else { ClientKeepsOwnCall(s, t, act, s'); }
  }

  lemma StepKeepsOtherCall(s: State, t: Tid, act: Action, s': State, u: Tid)
    requires Next(s, t, act, s') && LinksThere(s, t, act, u) && u != t
    ensures CallAt(s', u)
  {
    hide EnterStep, SliceStep, CleanStep, NewStep, ClientStep, Links, LinksThere;
    if EnterStep(s, t, act, s') { EnterKeepsOtherCall(s, t, act, s', u); }
    else if SliceStep(s, t, act, s') { SliceKeepsOtherCall(s, t, act, s', u); }
    else if CleanStep(s, t, act, s') { CleanKeepsOtherCall(s, t, act, s', u); }
    else if NewStep(s, t, act, s') { NewKeepsOtherCall(s, t, act, s', u); }
    else { ClientKeepsOtherCall(s, t, act, s', u); }
  }

  lemma StepKeepsMaps(s: State, t: Tid, act: Action, s': State, u: Tid, m: Mid)
    requires Next(s, t, act, s') && UnmapAt(s, u, m) && UnmapAt(s, t, m) && MapAt(s, m)
    requires var f := BlockOf(s, t, act); Quiet(s, f) && CleanAt(s, t, f)
    ensures UnmapAt(s', u, m) && MapAt(s', m)
  {
    if EnterStep(s, t, act, s') {
      EnterKeepsUnmap(s, t, act, s', u, m);
    } else if SliceStep(s, t, act, s') {
      SliceKeepsUnmap(s, t, act, s', u, m);
    } else if CleanStep(s, t, act, s') {
      CleanKeepsUnmap(s, t, act, s', u, m);
      CleanKeepsMap(s, t, act, s', m);
    } else if NewStep(s, t, act, s') {
      NewKeepsUnmap(s, t, act, s', u, m);
      NewKeepsMap(s, t, act, s', m);
    } else {
      ClientKeepsUnmap(s, t, act, s', u, m);
    }
  }

  lemma StepKeepsBlock(s: State, t: Tid, act: Action, s': State, b: Bid)
    requires Next(s, t, act, s') && BlockAt(s, b) && MapAt(s, b.root) && CallAt(s, t)
    requires var a := ArenaOf(PcOf(s, t).call); OwnAt(s, a, b) && LockAt(s, t, a)
    requires var f := BlockOf(s, t, act); CleanAt(s, t, f) && BlockAt(s, f) && UnmapAt(s, t, f.root)
    ensures BlockAt(s', b)
  {
    if EnterStep(s, t, act, s') {
      EnterKeepsBlock(s, t, act, s', b);
    } else if SliceStep(s, t, act, s') {
      SliceKeepsBlock(s, t, act, s', b);
    } else if CleanStep(s, t, act, s') {
      CleanKeepsBlock(s, t, act, s', b);
    } else if NewStep(s, t, act, s') {
      if act.MapNew? { MapKeepsBlock(s, t, act, s', b); } else { TakeKeepsBlock(s, t, act, s', b); }
    } else {
      ClientKeepsBlock(s, t, act, s', b);
    }
  }

  lemma LinksHere(s: State, t: Tid, a: Aid, b: Bid)
    requires Inv(s)
    ensures LinkAt(s, t, a, b) && BlockAt(s, b) && MapAt(s, b.root)
  {
    assert InvAt(s, t, a, b);
    IsQuiet(s, b);
  }

  lemma StepKeepsAt(s: State, t: Tid, act: Action, s': State, u: Tid, a: Aid, b: Bid)
    requires Inv(s) && Next(s, t, act, s')
    ensures InvAt(s', u, a, b)
  {
    var mine, yours := ArenaOf(PcOf(s, t).call), ArenaOf(PcOf(s, u).call);
    var f, g := BlockOf(s, t, act), CallBlock(s, PcOf(s, u).call);
    LinksHere(s, t, a, b); LinksHere(s, u, a, b);
    LinksHere(s, t, mine, f); LinksHere(s, u, mine, f); LinksHere(s, t, mine, b);
    LinksHere(s, t, yours, b); LinksHere(s, u, yours, f); LinksHere(s, t, a, f);
    LinksHere(s, u, yours, g); LinksHere(s, t, yours, g); LinksHere(s, t, mine, g); LinksHere(s, t, yours, f);
    StepKeepsLock(s, t, act, s', u, a, b);
    StepKeepsOwn(s, t, act, s', u, a, b);
    StepKeepsClean(s, t, act, s', u, a, b);
    if u == t { StepKeepsOwnCall(s, t, act, s'); } else { StepKeepsOtherCall(s, t, act, s', u); }
    StepKeepsMaps(s, t, act, s', u, b.root);
    StepKeepsBlock(s, t, act, s', b);
  }

  lemma StepKeeps(s: State, t: Tid, act: Action, s': State)
    requires Inv(s) && Next(s, t, act, s')
    ensures Inv(s')
  {
    hide Next, InvAt;
    forall u: Tid, a: Aid, b: Bid ensures InvAt(s', u, a, b) {
      StepKeepsAt(s, t, act, s', u, a, b);
    }
  }

  ghost predicate IsRun(states: seq<State>, moves: seq<(Tid, Action)>) {
    && |states| == |moves| + 1 && Init(states[0])
    && forall i :: 0 <= i < |moves| ==> Next(states[i], moves[i].0, moves[i].1, states[i + 1])
  }

  lemma {:induction false} RunKeeps(states: seq<State>, moves: seq<(Tid, Action)>, i: nat)
    requires IsRun(states, moves) && i <= |moves|
    ensures Inv(states[i])
  {
    hide Next;
    if i > 0 {
      RunKeeps(states, moves, i - 1);
      StepKeeps(states[i - 1], moves[i - 1].0, moves[i - 1].1, states[i]);
    }
  }

  // ---------------------------------------------------------------------------------------------
  // What holds in every reachable state

  /** The block's count is one for the arena that uses it, if there is one, plus the slices that are out. */
  ghost predicate RefIsExact(s: State, b: Bid) {
    b in s.blocks &&
    if exists a: Aid :: Owns(s, a, b) then
      s.blocks[b].ref == 1 + |s.blocks[b].live| && forall a: Aid, o: Aid :: Owns(s, a, b) && Owns(s, o, b) ==> a == o
    else s.blocks[b].ref == |s.blocks[b].live|
  }

  /** The count of a block is exact if and only if the block has left the pool since it was mapped: the
      blocks that a new mapping puts into the pool start with a count of 1 that nobody holds. Every
      block outside the pool has an exact count. */
  lemma RefCountExact(states: seq<State>, moves: seq<(Tid, Action)>, i: nat, b: Bid)
    requires IsRun(states, moves) && i <= |moves| && b in states[i].blocks
    ensures RefIsExact(states[i], b) <==> !states[i].blocks[b].unused
    ensures Out(states[i], b) ==> !states[i].blocks[b].unused
  {
    var s := states[i];
    RunKeeps(states, moves, i);
    forall a: Aid ensures Owns(s, a, b) <==> s.blocks[b].owner == Some(a) {
      assert InvAt(s, 0, a, b);
    }
    LinksHere(s, 0, 0, b);
    if s.blocks[b].owner.Some? {
      assert Owns(s, s.blocks[b].owner.value, b);
    }
  }

  // The first request, step by step: it enters, finds its arena without a block and maps 256 blocks.

  const EMPTY := State(map[], map[], map[], map[], map[])
  const ENTERED := EMPTY.(pcs := map[0 := At(Entered(0, 1))], locks := map[0 := 0])
  const WITHOUT := ENTERED.(pcs := map[0 := At(NeedBlock(0, 1))])

  function FirstMapped(): State {
    WITHOUT.(pcs := map[0 := At(Ready(0, 1))], maps := map[0 := NewMapping()], blocks := NewBlocks(0, 0, 0), arenas := map[0 := Bid(0, 0)])
  }

  lemma FirstEnters()
    ensures Next(EMPTY, 0, Enter(0, 16), ENTERED) && Next(ENTERED, 0, Look, WITHOUT)
  {
    hide SliceStep, CleanStep, NewStep, ClientStep;
    assert Go(EMPTY, 0, At(Entered(0, 1))).(locks := EMPTY.locks[0 := 0]) == ENTERED;
    assert EnterStep(EMPTY, 0, Enter(0, 16), ENTERED);
    assert Go(ENTERED, 0, At(NeedBlock(0, 1))) == WITHOUT;
    assert EnterStep(ENTERED, 0, Look, WITHOUT);
  }

  lemma FirstMaps()
    ensures Next(WITHOUT, 0, MapNew(0, 0), FirstMapped())
  {
    hide SliceStep, CleanStep, EnterStep, ClientStep, NewMapping;
    assert WITHOUT.blocks + NewBlocks(0, 0, 0) == NewBlocks(0, 0, 0);
    assert Go(WITHOUT, 0, At(Ready(0, 1))).(maps := WITHOUT.maps[0 := NewMapping()],
              blocks := WITHOUT.blocks + NewBlocks(0, 0, 0), arenas := WITHOUT.arenas[0 := Bid(0, 0)]) == FirstMapped();
    assert NewStep(WITHOUT, 0, MapNew(0, 0), FirstMapped());
  }

  /** Of the blocks that the first request maps, 255 are pooled with a count of 1 and nobody to hold it. */
  lemma UnusedWitness() returns (states: seq<State>, moves: seq<(Tid, Action)>)
    ensures IsRun(states, moves)
    ensures var s := states[|moves|]; Bid(0, 1) in s.blocks && s.blocks[Bid(0, 1)].ref == 1 && !RefIsExact(s, Bid(0, 1))
  {
    states, moves := [EMPTY, ENTERED, WITHOUT, FirstMapped()], [(0, Enter(0, 16)), (0, Look), (0, MapNew(0, 0))];
    FirstEnters();
    FirstMaps();
    hide Next;
    assert FirstMapped().blocks[Bid(0, 1)] == NewBlock(0, false, 0);
  }

  /** The root's count is the number of the mapping's blocks outside the pool. */
  lemma RootCountsBlocksOut(states: seq<State>, moves: seq<(Tid, Action)>, i: nat, m: Mid)
    requires IsRun(states, moves) && i <= |moves| && m in states[i].maps && states[i].maps[m].leaving == None
    ensures states[i].maps[m].rootRef == |set j: nat | j < BLOCKS && Out(states[i], Bid(m, j))| > 0
  {
    var s := states[i];
    RunKeeps(states, moves, i);
    assert InvAt(s, 0, 0, Bid(m, 0));
    OutsidePool(s.maps[m].pooled, BLOCKS);
    var out, rest := set j: nat | j < BLOCKS && Out(s, Bid(m, j)), set j: nat | j < BLOCKS && j !in s.maps[m].pooled;
    assert forall j: nat | j < BLOCKS :: j in out <==> j in rest;
    assert out == rest;
  }

  lemma {:induction false} OutsidePool(pooled: set<nat>, n: nat)
    requires forall i | i in pooled :: i < n
    ensures |set j: nat | j < n && j !in pooled| == n - |pooled|
    decreases n
  {
    var out := set j: nat | j < n && j !in pooled;
    if n == 0 {
      assert pooled == {} && out == {};
    } else {
      var rest := pooled - {n - 1};
      OutsidePool(rest, n - 1);
      var less := set j: nat | j < n - 1 && j !in rest;
      assert out == if n - 1 in pooled then less else less + {n - 1};
    }
  }

  /** The slice is out, with the program or on its way to it. */
  predicate Live(s: State, p: Ptr) {
    p.blk in s.blocks && p.at in s.blocks[p.blk].live
  }

  function Length(s: State, p: Ptr): nat
    requires Live(s, p)
  {
    s.blocks[p.blk].live[p.at].len
  }

  /** Slices lie inside their blocks, behind the header, and no two of them share a unit; none is
      mistaken for a large allocation, which starts 16 bytes into its block. */
  lemma SlicesAreApart(states: seq<State>, moves: seq<(Tid, Action)>, i: nat, p: Ptr, q: Ptr)
    requires IsRun(states, moves) && i <= |moves| && Live(states[i], p) && Live(states[i], q)
    ensures START <= p.at && Length(states[i], p) >= 1 && p.at + Length(states[i], p) <= LIMIT
    ensures p.blk == q.blk && p.at < q.at ==> p.at + Length(states[i], p) <= q.at
    ensures p.at * 16 % 32768 != 16
  {
    RunKeeps(states, moves, i);
    assert InvAt(states[i], 0, 0, p.blk);
  }

  /** Both counters fit their 16 bits. */
  lemma CountsFit(states: seq<State>, moves: seq<(Tid, Action)>, i: nat, b: Bid)
    requires IsRun(states, moves) && i <= |moves| && b in states[i].blocks && b.root in states[i].maps
    ensures 0 <= states[i].blocks[b].ref < 0x1_0000 && 0 <= states[i].maps[b.root].rootRef < 0x1_0000
  {
    var s := states[i];
    RunKeeps(states, moves, i);
    assert InvAt(s, 0, 0, b);
    Fewer(s.blocks[b].live.Keys, LIMIT);
  }

  /** Every unit of the slice is zero. */
  ghost predicate IsZero(k: Block, at: nat)
    requires at in k.live
  {
    forall u | at <= u < at + k.live[at].len :: u !in k.mem
  }

  /** What `fio_malloc` returns is all zero. */
  lemma MallocIsZero(states: seq<State>, moves: seq<(Tid, Action)>, i: nat)
    requires IsRun(states, moves) && i < |moves| && moves[i].1.Leave?
    ensures PcOf(states[i], moves[i].0).call.Leaving?
    ensures var p := PcOf(states[i], moves[i].0).call.ptr;
            Given(states[i + 1], p) && IsZero(states[i + 1].blocks[p.blk], p.at)
  {
    var s, t := states[i], moves[i].0;
    RunKeeps(states, moves, i);
    assert Next(s, t, moves[i].1, states[i + 1]);
    var p := PcOf(s, t).call.ptr;
    LinksHere(s, t, 0, p.blk);
    assert Carried(s, t, p) && StillZero(s.blocks[p.blk]);
    assert IsZero(s.blocks[p.blk], p.at);
  }

  /** Nothing new is handed out of the block. */
  ghost predicate NoneHanded(k: Block, k': Block) {
    k'.handed == k.handed && k'.live.Keys <= k.live.Keys
  }

  /** The step wipes this block. */
  predicate Wipes(s: State, t: Tid, act: Action, b: Bid) {
    act.WipeBlock? && PcOf(s, t).Wiping? && PcOf(s, t).blk == b
  }

  lemma SliceHands(s: State, t: Tid, act: Action, s': State, b: Bid)
    requires SliceStep(s, t, act, s') && b in s.blocks && b in s'.blocks && CallAt(s, t)
    ensures NoneHanded(s.blocks[b], s'.blocks[b])
         || exists units: nat :: s'.blocks[b] == Cut(s.blocks[b], units, t)
  {
    if act.TakeSlice? && BlockOf(s, t, act) == b {
      assert s'.blocks[b] == Cut(s.blocks[b], PcOf(s, t).call.units, t);
    }
  }

  lemma OthersHandNone(s: State, t: Tid, act: Action, s': State, b: Bid)
    requires EnterStep(s, t, act, s') || CleanStep(s, t, act, s') || NewStep(s, t, act, s') || ClientStep(s, t, act, s')
    requires b in s.blocks && b in s'.blocks && Quiet(s, b)
    ensures NoneHanded(s.blocks[b], s'.blocks[b]) || (Wipes(s, t, act, b) && s'.blocks[b].live == s.blocks[b].live)
  {
  }

  /** Between two wipes of a block a unit is handed out at most once: a new slice holds none of the
      units handed out before, and only a wipe forgets them. */
  lemma UnitsHandedOnce(states: seq<State>, moves: seq<(Tid, Action)>, i: nat, b: Bid, at: nat)
    requires IsRun(states, moves) && i < |moves| && b in states[i].blocks && b in states[i + 1].blocks
    ensures Wipes(states[i], moves[i].0, moves[i].1, b) || states[i].blocks[b].handed <= states[i + 1].blocks[b].handed
    ensures at in states[i + 1].blocks[b].live && at !in states[i].blocks[b].live ==>
              forall u: nat | at <= u < at + states[i + 1].blocks[b].live[at].len ::
                u !in states[i].blocks[b].handed && u in states[i + 1].blocks[b].handed
  {
    RunKeeps(states, moves, i);
    LinksHere(states[i], moves[i].0, 0, b);
    assert Next(states[i], moves[i].0, moves[i].1, states[i + 1]);
    if SliceStep(states[i], moves[i].0, moves[i].1, states[i + 1]) {
      SliceHands(states[i], moves[i].0, moves[i].1, states[i + 1], b);
    } else {
      OthersHandNone(states[i], moves[i].0, moves[i].1, states[i + 1], b);
    }
  }

  /** The thread's next access is to the block. */
  ghost predicate Touches(s: State, t: Tid, b: Bid) {
    var pc := PcOf(s, t);
    if pc.Wiping? || pc.Wiped? then pc.blk == b
    else if pc.Unmapping? then false
    else match pc.call
         case Entered(a, _) => a in s.arenas && s.arenas[a] == b
         case Ready(a, _) => a in s.arenas && s.arenas[a] == b
         case Full(_, p) => p.blk == b
         case Leaving(_, p) => p.blk == b
         case _ => false
  }

  /** Only one thread cleans a block, and then nothing else refers to it. */
  lemma CleanedAlone(states: seq<State>, moves: seq<(Tid, Action)>, i: nat, t: Tid, u: Tid, a: Aid, b: Bid)
    requires IsRun(states, moves) && i <= |moves| && Cleaning(PcOf(states[i], t), b)
    ensures Touches(states[i], u, b) ==> u == t
    ensures !Owns(states[i], a, b) && b in states[i].blocks && states[i].blocks[b].live == map[]
  {
    var s := states[i];
    RunKeeps(states, moves, i);
    var yours := ArenaOf(PcOf(s, u).call);
    LinksHere(s, t, a, b);
    LinksHere(s, u, yours, b);
    if yours in s.locks { LinksHere(s, s.locks[yours], yours, b); }
  }

  /** No thread's next access is to memory that has been given back to the system. */
  lemma NothingTouchesUnmapped(states: seq<State>, moves: seq<(Tid, Action)>, i: nat, t: Tid, b: Bid)
    requires IsRun(states, moves) && i <= |moves| && Touches(states[i], t, b)
    ensures b in states[i].blocks && Out(states[i], b)
  {
    var s := states[i];
    RunKeeps(states, moves, i);
    var mine := ArenaOf(PcOf(s, t).call);
    LinksHere(s, t, mine, b);
  }

  /** When a mapping goes back to the system all of its blocks were in the pool, no slice of it is out,
      no arena uses any of its blocks and no thread is about to touch one. */
  lemma ReturnedWhenAllPooled(states: seq<State>, moves: seq<(Tid, Action)>, i: nat, b: Bid, a: Aid, t: Tid)
    requires IsRun(states, moves) && i <= |moves| && b in states[i].blocks
    requires b.root in states[i].maps && states[i].maps[b.root].leaving != None
    ensures states[i].blocks[b].live == map[] && !Owns(states[i], a, b) && !Touches(states[i], t, b)
  {
    RunKeeps(states, moves, i);
    assert InvAt(states[i], t, a, b);
    if Touches(states[i], t, b) {
      NothingTouchesUnmapped(states, moves, i, t, b);
    }
  }

  /** A mapping starts to leave in the step that puts its last block into the pool. */
  lemma LeavesWithTheLastBlock(states: seq<State>, moves: seq<(Tid, Action)>, i: nat, m: Mid, j: nat)
    requires IsRun(states, moves) && i < |moves| && m in states[i].maps && m in states[i + 1].maps && j < BLOCKS
    requires states[i].maps[m].leaving == None && states[i + 1].maps[m].leaving != None
    ensures moves[i].1.GiveBack? && PcOf(states[i], moves[i].0).Wiped?
    ensures j in states[i].maps[m].pooled || PcOf(states[i], moves[i].0).blk == Bid(m, j)
  {
    var s, t := states[i], moves[i].0;
    RunKeeps(states, moves, i);
    assert Next(s, t, moves[i].1, states[i + 1]);
    var f := BlockOf(s, t, moves[i].1);
    LinksHere(s, t, 0, f);
    LinksHere(s, t, 0, Bid(m, j));
    ReturnKeeps(s.maps[m], f.index, t);
  }
}
