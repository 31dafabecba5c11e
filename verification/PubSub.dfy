/** Publishing to subscriptions: messages, subscriptions and channels that are freed when their reference
    counts reach 0, deferred deliveries, and one `fio_unsubscribe` per subscription, as steps that any
    number of activities interleave. An activity is one call of a library function or one task taken
    from the queue; a call made from within a callback is an activity of its own.

    A step touches at most one thing that other activities may change at the same time: one count
    (atomic), one lock, the task queue, or the table of channels (under the lock of its collection). */
module PubSub {
  import opened Options

  type Tid = nat   // an activity
  type Mid = nat   // a message
  type Sid = nat   // a subscription
  type Cid = nat   // a channel
  type Key = nat   // a collection and a name in it
  type Id = nat    // a task in the queue, or a packet in a socket's queue

  /** What a reference is held by. */
  datatype Token =
    | Held(t: Tid, second: bool)  // an activity; one may hold two references to a message
    | Task(i: Id)
    | Owner                       // the program, until `fio_unsubscribe` lets go
    | Table                       // the collection of channels
    | Member(x: Sid)              // a subscription, of its channel
    | Sent(i: Id)                 // a packet that waits at a socket

  /** A reference count; who holds references and how often the object was freed are history. */
  datatype Count = Count(ref: int, holders: set<Token>, frees: nat)

  function Dup(c: Count, tok: Token): Count {
    c.(ref := c.ref + 1, holders := c.holders + {tok})
  }

  /** The atomic decrement; whoever reaches 0 frees the object. */
  function Drop(c: Count, tok: Token): Count {
    Count(c.ref - 1, c.holders - {tok}, if c.ref - 1 == 0 then c.frees + 1 else c.frees)
  }

  /** The reference changes hands. */
  function Move(c: Count, from: Token, to: Token): Count {
    c.(holders := c.holders - {from} + {to})
  }

  const NOBODY := Count(0, {}, 0)

  /** Where a subscription is between `fio_subscribe` and `fio_unsubscribe`; history. */
  datatype Phase = New(t: Tid) | Active | Leaves(t: Tid) | Gone

  /** What is left to do once its count is 0; history. */
  datatype End = Alive | Due(t: Tid) | Parting(t: Tid) | Ended

  /** `silent` says that `on_message` is NULL, `mock` that it is the cluster's empty callback; `calls`
      and `starts` count the calls of `on_unsubscribe` and `on_message`. */
  datatype Subscription = Subscription(
    count: Count, parent: Option<Cid>, lock: Option<Tid>, silent: bool, mock: bool,
    phase: Phase, listed: bool, end: End, calls: nat, starts: nat)

  datatype Channel = Channel(count: Count, key: Key, lock: Option<Tid>, list: set<Sid>)

  datatype Item = ToChannel(c: Cid, m: Mid) | ToSub(x: Sid, m: Mid)

  datatype Pub = Sending | Found | Copied
  datatype Job = JobTaken | Looping | LoopSub | LoopBoth | LoopDone | JobDone
  datatype Del = Taken | Locked | Running | Ran | Again | Finishing | LettingGo
  datatype Join = Start | Looked | Checking | Retry | Confirmed | Joined
  datatype Leave = First | SubLocked | InChannel | Emptied | Unlinked | OutOfChannel | Silenced | Unlocked

  /** Where an activity is: in `fio_publish2process`, `fio_publish2channel_task`,
      `fio_perform_subscription_callback`, the end of `fio_subscription_free`, `fio_subscribe` or
      `fio_unsubscribe`; and its variables. */
  datatype Pc =
    | Idle
    | Publishing(pub: Pub, m: Mid, c: Cid, left: set<Key>)
    | Working(job: Job, c: Cid, m: Mid, rest: set<Sid>, x: Sid)
    | Delivering(del: Del, x: Sid, m: Mid, again: bool)
    | Ending(x: Sid)
    | Parted(x: Sid, c: Cid)
    | Joining(join: Join, x: Sid, key: Key, c: Cid)
    | Leaving(leave: Leave, x: Sid, c: Cid)

  datatype State = State(
    pcs: map<Tid, Pc>,
    queue: map<Id, Item>,
    msgs: map<Mid, Count>,
    subs: map<Sid, Subscription>,
    chans: map<Cid, Channel>,
    table: map<Key, Cid>,
    packets: map<Id, Mid>)  // the packets at all sockets that write a message

  function PcOf(s: State, t: Tid): Pc {
    if t in s.pcs then s.pcs[t] else Idle
  }

  function MsgOf(s: State, m: Mid): Count {
    if m in s.msgs then s.msgs[m] else NOBODY
  }

  function SubOf(s: State, x: Sid): Subscription {
    if x in s.subs then s.subs[x] else Subscription(NOBODY, None, None, true, false, Gone, false, Ended, 0, 0)
  }

  function ChanOf(s: State, c: Cid): Channel {
    if c in s.chans then s.chans[c] else Channel(NOBODY, 0, None, {})
  }

  function ItemOf(s: State, i: Id): Option<Item> {
    if i in s.queue then Some(s.queue[i]) else None
  }

  function PacketOf(s: State, i: Id): Option<Mid> {
    if i in s.packets then Some(s.packets[i]) else None
  }

  // The step moves one activity to `pc` and changes nothing else than is named.

  ghost predicate OnlyPc(s: State, s': State, t: Tid, pc: Pc) {
    && s'.pcs == s.pcs[t := pc] && s'.packets == s.packets && s'.queue == s.queue
    && s'.msgs == s.msgs && s'.subs == s.subs && s'.chans == s.chans && s'.table == s.table
  }

  ghost predicate OnlyMsg(s: State, s': State, t: Tid, pc: Pc, m: Mid, count: Count, packets: map<Id, Mid>) {
    && s'.pcs == s.pcs[t := pc] && s'.packets == packets && s'.queue == s.queue
    && s'.msgs == s.msgs[m := count] && s'.subs == s.subs && s'.chans == s.chans && s'.table == s.table
  }

  ghost predicate OnlySub(s: State, s': State, t: Tid, pc: Pc, x: Sid, sub: Subscription) {
    && s'.pcs == s.pcs[t := pc] && s'.packets == s.packets && s'.queue == s.queue
    && s'.msgs == s.msgs && s'.subs == s.subs[x := sub] && s'.chans == s.chans && s'.table == s.table
  }

  ghost predicate OnlyChan(s: State, s': State, t: Tid, pc: Pc, c: Cid, chan: Channel, table: map<Key, Cid>) {
    && s'.pcs == s.pcs[t := pc] && s'.packets == s.packets && s'.queue == s.queue
    && s'.msgs == s.msgs && s'.subs == s.subs && s'.chans == s.chans[c := chan] && s'.table == table
  }

  ghost predicate SubAndChan(s: State, s': State, t: Tid, pc: Pc, x: Sid, sub: Subscription, c: Cid, chan: Channel) {
    && s'.pcs == s.pcs[t := pc] && s'.packets == s.packets && s'.queue == s.queue
    && s'.msgs == s.msgs && s'.subs == s.subs[x := sub] && s'.chans == s.chans[c := chan] && s'.table == s.table
  }

  /** The references that go with a task change hands: the one to the message from `from` to `to`, the one
      to the channel or the subscription from `from'` to `to`. */
  ghost predicate PassOn(s: State, s': State, t: Tid, pc: Pc, item: Item, from: Token, from': Token, to: Token) {
    && s'.pcs == s.pcs[t := pc] && s'.packets == s.packets && s'.table == s.table
    && s'.msgs == s.msgs[item.m := Move(MsgOf(s, item.m), from, to)]
    && if item.ToChannel? then
         s'.subs == s.subs && s'.chans == s.chans[item.c := ChanMoved(ChanOf(s, item.c), from', to)]
       else
         s'.chans == s.chans && s'.subs == s.subs[item.x := SubMoved(SubOf(s, item.x), from', to)]
  }

  function ChanMoved(ch: Channel, from: Token, to: Token): Channel {
    ch.(count := Move(ch.count, from, to))
  }

  function ChanDup(ch: Channel, tok: Token): Channel {
    ch.(count := Dup(ch.count, tok))
  }

  function ChanDrop(ch: Channel, tok: Token): Channel {
    ch.(count := Drop(ch.count, tok))
  }

  function SubMoved(sub: Subscription, from: Token, to: Token): Subscription {
    sub.(count := Move(sub.count, from, to))
  }

  /** The activity's own reference. */
  function Mine(t: Tid): Token { Held(t, false) }

  // ---------------------------------------------------------------------------------------------
  // The steps

  datatype Action =
    | Put(i: Id) | Take(i: Id)
    | Create(m: Mid, keys: set<Key>) | Find(key: Key) | Miss(key: Key) | Copy | Finish | SendOut(i: Id) | OutDone(i: Id)
    | LockTask | EndLoop | UnlockTask | DropChannel | NextSub(x: Sid) | CopyFor
    | LockDelivery | Look | Return(again: bool) | UnlockSub | DropMsg
    | LetGo | LetGoLast | CallUnsub | DropParent
    | Subscribe(x: Sid, key: Key, mock: bool) | LookUp(c: Cid) | LockChannel | Check | Link | LeaveChannel
    | Unsubscribe(x: Sid) | LockSub | EnterChannel | Unlink | Retire | LeaveIt | Silence | UnlockIt

  ghost predicate Init(s: State) {
    s.pcs == map[] && s.queue == map[] && s.msgs == map[] && s.subs == map[] && s.chans == map[] && s.table == map[]
    && s.packets == map[]
  }

  /** What an activity at such a point puts into the queue, whether with its second reference to the
      message, and how it goes on. A task that finds its lock taken goes back to the queue. */
  function Putting(s: State, pc: Pc): Option<(Item, bool, Pc)> {
    match pc
    case Publishing(Copied, m, c, _) => Some((ToChannel(c, m), true, pc.(pub := Sending)))
    case Working(LoopBoth, c, m, _, x) => Some((ToSub(x, m), true, pc.(job := Looping)))
    case Working(JobTaken, c, m, _, _) => if ChanOf(s, c).lock.Some? then Some((ToChannel(c, m), false, Idle)) else None
    case Delivering(Taken, x, m, _) => if SubOf(s, x).lock.Some? then Some((ToSub(x, m), false, Idle)) else None
    case Delivering(Again, x, m, _) => Some((ToSub(x, m), false, Idle))
    case _ => None
  }

  /** The start of a task. */
  function Started(item: Item): Pc {
    match item
    case ToChannel(c, m) => Working(JobTaken, c, m, {}, 0)
    case ToSub(x, m) => Delivering(Taken, x, m, false)
  }

  ghost predicate PutStep(s: State, t: Tid, a: Action, s': State) {
    && a.Put? && a.i !in s.queue && Putting(s, PcOf(s, t)).Some?
    && var (item, second, next) := Putting(s, PcOf(s, t)).value;
       s'.queue == s.queue[a.i := item] && PassOn(s, s', t, next, item, Held(t, second), Mine(t), Task(a.i))
  }

  ghost predicate TakeStep(s: State, t: Tid, a: Action, s': State) {
    && a.Take? && a.i in s.queue && PcOf(s, t).Idle?
    && s'.queue == s.queue - {a.i}
    && PassOn(s, s', t, Started(s.queue[a.i]), s.queue[a.i], Task(a.i), Task(a.i), Mine(t))
  }

  /** Publishing in the process: the channel of that name and those of the matching patterns (`keys`) are found and
      counted, and the message is counted once more for each; also for each packet that writes it to a socket. */
  ghost predicate PublishStep(s: State, t: Tid, a: Action, s': State) {
    var pc := PcOf(s, t);
    match a
    case Create(m, keys) =>
      pc.Idle? && m !in s.msgs && OnlyMsg(s, s', t, Publishing(Sending, m, 0, keys), m, Count(1, {Mine(t)}, 0), s.packets)
    case Find(k) =>
      pc.Publishing? && pc.pub == Sending && k in pc.left && k in s.table &&
      OnlyChan(s, s', t, pc.(pub := Found, c := s.table[k], left := pc.left - {k}),
               s.table[k], ChanDup(ChanOf(s, s.table[k]), Mine(t)), s.table)
    case Miss(k) =>
      pc.Publishing? && pc.pub == Sending && k in pc.left && k !in s.table && OnlyPc(s, s', t, pc.(left := pc.left - {k}))
    case Copy =>
      pc.Publishing? && pc.pub == Found &&
      OnlyMsg(s, s', t, pc.(pub := Copied), pc.m, Dup(MsgOf(s, pc.m), Held(t, true)), s.packets)
    case Finish =>
      pc.Publishing? && pc.pub == Sending && pc.left == {} && OnlyMsg(s, s', t, Idle, pc.m, Drop(MsgOf(s, pc.m), Mine(t)), s.packets)
    case SendOut(i) =>
      pc.Publishing? && pc.pub == Sending && i !in s.packets &&
      OnlyMsg(s, s', t, pc, pc.m, Dup(MsgOf(s, pc.m), Sent(i)), s.packets[i := pc.m])
    case OutDone(i) =>
      pc.Idle? && i in s.packets &&
      OnlyMsg(s, s', t, pc, s.packets[i], Drop(MsgOf(s, s.packets[i]), Sent(i)), s.packets - {i})
    case _ => false
  }

  /** A channel's task, under the lock of the channel; `LoopStep` makes a delivery for each of its
      subscriptions but the mock ones, with a reference to the subscription and one to the message. */
  ghost predicate WorkStep(s: State, t: Tid, a: Action, s': State) {
    var pc := PcOf(s, t);
    match a
    case LockTask =>
      pc.Working? && pc.job == JobTaken && ChanOf(s, pc.c).lock == None &&
      OnlyChan(s, s', t, pc.(job := Looping, rest := ChanOf(s, pc.c).list),
               pc.c, ChanOf(s, pc.c).(lock := Some(t)), s.table)
    case EndLoop =>
      pc.Working? && pc.job == Looping && pc.rest == {} &&
      OnlyMsg(s, s', t, pc.(job := LoopDone), pc.m, Drop(MsgOf(s, pc.m), Mine(t)), s.packets)
    case UnlockTask =>
      pc.Working? && pc.job == LoopDone && OnlyChan(s, s', t, pc.(job := JobDone),
                                                    pc.c, ChanOf(s, pc.c).(lock := None), s.table)
    case DropChannel =>
      pc.Working? && pc.job == JobDone && OnlyChan(s, s', t, Idle, pc.c, ChanDrop(ChanOf(s, pc.c), Mine(t)), s.table)
    case _ => false
  }

  ghost predicate LoopStep(s: State, t: Tid, a: Action, s': State) {
    var pc := PcOf(s, t);
    match a
    case NextSub(x) =>
      pc.Working? && pc.job == Looping && x in pc.rest &&
      if SubOf(s, x).mock then OnlyPc(s, s', t, pc.(rest := pc.rest - {x}))
      else OnlySub(s, s', t, pc.(job := LoopSub, rest := pc.rest - {x}, x := x),
                   x, SubOf(s, x).(count := Dup(SubOf(s, x).count, Mine(t))))
    case CopyFor =>
      pc.Working? && pc.job == LoopSub &&
      OnlyMsg(s, s', t, pc.(job := LoopBoth), pc.m, Dup(MsgOf(s, pc.m), Held(t, true)), s.packets)
    case _ => false
  }

  /** A delivery: the callback runs under the lock of the subscription, unless that is silent; it may ask to
      be called again. */
  ghost predicate CallStep(s: State, t: Tid, a: Action, s': State) {
    var pc := PcOf(s, t);
    match a
    case LockDelivery =>
      pc.Delivering? && pc.del == Taken && SubOf(s, pc.x).lock == None &&
      OnlySub(s, s', t, pc.(del := Locked), pc.x, SubOf(s, pc.x).(lock := Some(t)))
    case Look =>
      pc.Delivering? && pc.del == Locked &&
      if SubOf(s, pc.x).silent then OnlyPc(s, s', t, pc.(del := Ran, again := false))
      else OnlySub(s, s', t, pc.(del := Running), pc.x, SubOf(s, pc.x).(starts := SubOf(s, pc.x).starts + 1))
    case Return(again) =>
      pc.Delivering? && pc.del == Running && OnlyPc(s, s', t, pc.(del := Ran, again := again))
    case UnlockSub =>
      pc.Delivering? && pc.del == Ran &&
      OnlySub(s, s', t, pc.(del := if pc.again then Again else Finishing), pc.x, SubOf(s, pc.x).(lock := None))
    case DropMsg =>
      pc.Delivering? && pc.del == Finishing &&
      OnlyMsg(s, s', t, pc.(del := LettingGo), pc.m, Drop(MsgOf(s, pc.m), Mine(t)), s.packets)
    case _ => false
  }

  function Released(sub: Subscription, t: Tid, tok: Token): Subscription {
    sub.(count := Drop(sub.count, tok), end := if sub.count.ref - 1 == 0 then Due(t) else sub.end)
  }

  /** Letting go of a subscription, after a delivery or at the end of `fio_unsubscribe`; at 0 comes
      `on_unsubscribe` and then the reference to the channel. */
  ghost predicate ReleaseStep(s: State, t: Tid, a: Action, s': State) {
    var pc := PcOf(s, t);
    match a
    case LetGo =>
      pc.Delivering? && pc.del == LettingGo &&
      OnlySub(s, s', t, if SubOf(s, pc.x).count.ref - 1 == 0 then Ending(pc.x) else Idle,
              pc.x, Released(SubOf(s, pc.x), t, Mine(t)))
    case LetGoLast =>
      pc.Leaving? && pc.leave == Unlocked &&
      OnlySub(s, s', t, if SubOf(s, pc.x).count.ref - 1 == 0 then Ending(pc.x) else Idle,
              pc.x, Released(SubOf(s, pc.x), t, Owner).(phase := Gone))
    case CallUnsub =>
      pc.Ending? && SubOf(s, pc.x).parent.Some? &&
      OnlySub(s, s', t, Parted(pc.x, SubOf(s, pc.x).parent.value),
              pc.x, SubOf(s, pc.x).(calls := SubOf(s, pc.x).calls + 1, end := Parting(t)))
    case DropParent =>
      pc.Parted? &&
      SubAndChan(s, s', t, Idle,
                 pc.x, SubOf(s, pc.x).(parent := None, end := Ended), pc.c, ChanDrop(ChanOf(s, pc.c), Member(pc.x)))
    case _ => false
  }

  /** Subscribing: the channel is looked up or made, locked, and looked up again; if it is still in the
      table the subscription becomes a member, otherwise all is tried again, with the channel that was
      found as the template. */
  ghost predicate JoinStep(s: State, t: Tid, a: Action, s': State) {
    var pc := PcOf(s, t);
    match a
    case Subscribe(x, k, mock) =>
      pc.Idle? && x !in s.subs &&
      OnlySub(s, s', t, Joining(Start, x, k, 0),
              x, Subscription(Count(1, {Owner}, 0), None, None, false, mock, New(t), false, Alive, 0, 0))
    case LookUp(c) =>
      pc.Joining? && (pc.join == Start || pc.join == Retry) &&
      if pc.key in s.table then c == s.table[pc.key] && OnlyPc(s, s', t, pc.(join := Looked, c := c))
      else c !in s.chans &&
           OnlyChan(s, s', t, pc.(join := Looked, c := c),
                    c, Channel(Count(1, {Table}, 0), pc.key, None, {}), s.table[pc.key := c])
    case LockChannel =>
      pc.Joining? && pc.join == Looked && ChanOf(s, pc.c).lock == None &&
      OnlyChan(s, s', t, pc.(join := Checking), pc.c, ChanOf(s, pc.c).(lock := Some(t)), s.table)
    case Check =>
      pc.Joining? && pc.join == Checking &&
      if pc.key in s.table && s.table[pc.key] == pc.c then OnlyPc(s, s', t, pc.(join := Confirmed))
      else OnlyChan(s, s', t, pc.(join := Retry), pc.c, ChanOf(s, pc.c).(lock := None), s.table)
    case Link =>
      pc.Joining? && pc.join == Confirmed &&
      SubAndChan(s, s', t, pc.(join := Joined),
                 pc.x, SubOf(s, pc.x).(parent := Some(pc.c), listed := true, phase := Active),
                 pc.c, ChanDup(ChanOf(s, pc.c), Member(pc.x)).(list := ChanOf(s, pc.c).list + {pc.x}))
    case LeaveChannel =>
      pc.Joining? && pc.join == Joined && OnlyChan(s, s', t, Idle, pc.c, ChanOf(s, pc.c).(lock := None), s.table)
    case _ => false
  }

  /** Unsubscribing: the subscription leaves the list of its channel. */
  ghost predicate LeaveStep(s: State, t: Tid, a: Action, s': State) {
    var pc := PcOf(s, t);
    match a
    case Unsubscribe(x) =>
      pc.Idle? && x in s.subs && s.subs[x].phase == Active &&
      OnlySub(s, s', t, Leaving(First, x, 0), x, SubOf(s, x).(phase := Leaves(t)))
    case LockSub =>
      pc.Leaving? && pc.leave == First && SubOf(s, pc.x).lock == None &&
      OnlySub(s, s', t, pc.(leave := SubLocked), pc.x, SubOf(s, pc.x).(lock := Some(t)))
    case EnterChannel =>
      pc.Leaving? && pc.leave == SubLocked && SubOf(s, pc.x).parent.Some? &&
      var c := SubOf(s, pc.x).parent.value;
      ChanOf(s, c).lock == None &&
      OnlyChan(s, s', t, pc.(leave := InChannel, c := c), c, ChanOf(s, c).(lock := Some(t)), s.table)
    case Unlink =>
      pc.Leaving? && pc.leave == InChannel &&
      var ch := ChanOf(s, pc.c).(list := ChanOf(s, pc.c).list - {pc.x});
      SubAndChan(s, s', t, pc.(leave := if ch.list == {} then Emptied else Unlinked),
                 pc.x, SubOf(s, pc.x).(listed := false), pc.c, ch)
    case _ => false
  }

  /** The last one takes the channel out of the table; then `on_message` is cleared, while no callback can
      be running. */
  ghost predicate QuitStep(s: State, t: Tid, a: Action, s': State) {
    var pc := PcOf(s, t);
    match a
    case Retire =>
      pc.Leaving? && pc.leave == Emptied &&
      var k := ChanOf(s, pc.c).key;
      if ChanOf(s, pc.c).list == {} && k in s.table then
        OnlyChan(s, s', t, pc.(leave := Unlinked), s.table[k], ChanDrop(ChanOf(s, s.table[k]), Table), s.table - {k})
      else OnlyPc(s, s', t, pc.(leave := Unlinked))
    case LeaveIt =>
      pc.Leaving? && pc.leave == Unlinked &&
      OnlyChan(s, s', t, pc.(leave := OutOfChannel), pc.c, ChanOf(s, pc.c).(lock := None), s.table)
    case Silence =>
      pc.Leaving? && pc.leave == OutOfChannel &&
      OnlySub(s, s', t, pc.(leave := Silenced), pc.x, SubOf(s, pc.x).(silent := true))
    case UnlockIt =>
      pc.Leaving? && pc.leave == Silenced &&
      OnlySub(s, s', t, pc.(leave := Unlocked), pc.x, SubOf(s, pc.x).(lock := None))
    case _ => false
  }

  /** Which part of the code a step is in. */
  datatype Part = InPut | InTake | InPublish | InWork | InLoop | InCall | InRelease | InJoin | InLeave | InQuit

  function PartOf(a: Action): Part {
    match a
    case Put(_) => InPut
    case Take(_) => InTake
    case Create(_, _) => InPublish case Find(_) => InPublish case Miss(_) => InPublish case Copy => InPublish case Finish => InPublish case SendOut(_) => InPublish case OutDone(_) => InPublish
    case LockTask => InWork case EndLoop => InWork case UnlockTask => InWork case DropChannel => InWork
    case NextSub(_) => InLoop case CopyFor => InLoop
    case LockDelivery => InCall case Look => InCall case Return(_) => InCall case UnlockSub => InCall case DropMsg => InCall
    case LetGo => InRelease case LetGoLast => InRelease case CallUnsub => InRelease case DropParent => InRelease
    case Subscribe(_, _, _) => InJoin case LookUp(_) => InJoin case LockChannel => InJoin case Check => InJoin case Link => InJoin case LeaveChannel => InJoin
    case Unsubscribe(_) => InLeave case LockSub => InLeave case EnterChannel => InLeave case Unlink => InLeave
    case _ => InQuit
  }

  ghost predicate Next(s: State, t: Tid, a: Action, s': State) {
    match PartOf(a)
    case InPut => PutStep(s, t, a, s')
    case InTake => TakeStep(s, t, a, s')
    case InPublish => PublishStep(s, t, a, s')
    case InWork => WorkStep(s, t, a, s')
    case InLoop => LoopStep(s, t, a, s')
    case InCall => CallStep(s, t, a, s')
    case InRelease => ReleaseStep(s, t, a, s')
    case InJoin => JoinStep(s, t, a, s')
    case InLeave => LeaveStep(s, t, a, s')
    case InQuit => QuitStep(s, t, a, s')
  }

  // ---------------------------------------------------------------------------------------------
  // Reference counts

  /** The count is the number of holders; the object is freed, once, when there is none left. */
  predicate Exact(c: Count) {
    c.ref == |c.holders| && c.frees == if c.holders == {} then 1 else 0
  }

  lemma DupKeeps(c: Count, tok: Token)
    requires Exact(c) && c.holders != {} && tok !in c.holders
    ensures Exact(Dup(c, tok))
  {
  }

  lemma DropKeeps(c: Count, tok: Token)
    requires Exact(c) && tok in c.holders
    ensures Exact(Drop(c, tok)) && (Drop(c, tok).holders == {} <==> c.ref == 1)
  {
    assert c.holders == (c.holders - {tok}) + {tok};
  }

  lemma MoveKeeps(c: Count, from: Token, to: Token)
    requires Exact(c) && from in c.holders && to !in c.holders
    ensures Exact(Move(c, from, to))
  {
    assert |c.holders - {from}| == |c.holders| - 1;
    assert to in Move(c, from, to).holders;
  }

  // ---------------------------------------------------------------------------------------------
  // What an activity holds

  predicate HasMsg(pc: Pc, m: Mid) {
    match pc
    case Publishing(_, n, _, _) => n == m
    case Working(job, _, n, _, _) => n == m && job != LoopDone && job != JobDone
    case Delivering(del, _, n, _) => n == m && del != LettingGo
    case _ => false
  }

  predicate HasSecond(pc: Pc, m: Mid) {
    || (pc.Publishing? && pc.pub == Copied && pc.m == m)
    || (pc.Working? && pc.job == LoopBoth && pc.m == m)
  }

  predicate HasSub(pc: Pc, x: Sid) {
    || (pc.Working? && (pc.job == LoopSub || pc.job == LoopBoth) && pc.x == x)
    || (pc.Delivering? && pc.x == x)
  }

  predicate HasChan(pc: Pc, c: Cid) {
    || (pc.Publishing? && pc.pub != Sending && pc.c == c)
    || (pc.Working? && pc.c == c)
  }

  predicate LocksSub(pc: Pc, x: Sid) {
    || (pc.Delivering? && (pc.del == Locked || pc.del == Running || pc.del == Ran) && pc.x == x)
    || (pc.Leaving? && pc.leave != First && pc.leave != Unlocked && pc.x == x)
  }

  predicate LocksChan(pc: Pc, c: Cid) {
    || (pc.Working? && pc.job != JobTaken && pc.job != JobDone && pc.c == c)
    || (pc.Joining? && (pc.join == Checking || pc.join == Confirmed || pc.join == Joined) && pc.c == c)
    || (pc.Leaving? && (pc.leave == InChannel || pc.leave == Emptied || pc.leave == Unlinked) && pc.c == c)
  }

  /** A channel has been looked up and not found to be still in the table. */
  predicate Unconfirmed(join: Join) {
    join == Looked || join == Checking || join == Retry
  }

  /** In the channel, or past it and about to report that it is gone. */
  predicate InsideOrJustOut(at: Leave) {
    at == InChannel || at == Emptied || at == Unlinked || at == OutOfChannel
  }

  predicate BeforeUnlink(at: Leave) {
    at == First || at == SubLocked || at == InChannel
  }

  // ---------------------------------------------------------------------------------------------
  // The invariant

  /** The references to a message: by an activity, by a task in the queue, and by a packet at a socket. */
  ghost predicate MsgRefsAt(s: State, u: Tid, i: Id, m: Mid) {
    var h := MsgOf(s, m).holders;
    && (Held(u, false) in h <==> HasMsg(PcOf(s, u), m))
    && (Held(u, true) in h <==> HasSecond(PcOf(s, u), m))
    && (Task(i) in h <==> ItemOf(s, i).Some? && ItemOf(s, i).value.m == m)
    && (Sent(i) in h <==> PacketOf(s, i) == Some(m))
  }

  /** What holds of a subscription on its own. */
  ghost predicate SubOk(sub: Subscription) {
    && Exact(sub.count)
    && (sub.end == Alive <==> sub.count.holders != {})
    && sub.calls == (if sub.end.Parting? || sub.end.Ended? then 1 else 0)
    && (Owner in sub.count.holders <==> sub.phase != Gone)
    && (sub.parent.Some? <==> !sub.phase.New? && sub.end != Ended)
    && (sub.listed ==> sub.phase.Active? || sub.phase.Leaves?) && (sub.phase.Active? ==> sub.listed)
    && (sub.silent ==> sub.phase.Leaves? || sub.phase.Gone?) && (sub.phase.Gone? ==> sub.silent)
    && (sub.listed ==> !sub.silent)
  }

  /** The references to a subscription. */
  ghost predicate SubRefsAt(s: State, u: Tid, i: Id, x: Sid) {
    var h := SubOf(s, x).count.holders;
    && (Held(u, false) in h <==> HasSub(PcOf(s, u), x))
    && (Task(i) in h <==> ItemOf(s, i).Some? && ItemOf(s, i).value.ToSub? && ItemOf(s, i).value.x == x)
  }

  /** Who works on a subscription: its lock, its joining and leaving, its end. */
  ghost predicate SubUsersAt(s: State, u: Tid, x: Sid) {
    var pc, sub := PcOf(s, u), SubOf(s, x);
    && (LocksSub(pc, x) <==> sub.lock == Some(u))
    && (pc.Joining? && pc.join != Joined && pc.x == x <==> sub.phase == New(u))
    && (pc.Leaving? && pc.x == x <==> sub.phase == Leaves(u))
    && (pc.Leaving? && pc.x == x ==> (sub.listed <==> BeforeUnlink(pc.leave)))
    && (pc.Leaving? && pc.x == x && (pc.leave == Silenced || pc.leave == Unlocked) ==> sub.silent)
    && (pc == Ending(x) <==> sub.end == Due(u))
    && (pc.Parted? && pc.x == x <==> sub.end == Parting(u))
    && (pc.Delivering? && pc.del == Running && pc.x == x ==> !sub.silent)
  }

  /** The references to a channel by activities and tasks. */
  ghost predicate ChanRefsAt(s: State, u: Tid, i: Id, c: Cid) {
    var h := ChanOf(s, c).count.holders;
    && (Held(u, false) in h <==> HasChan(PcOf(s, u), c))
    && (Task(i) in h <==> ItemOf(s, i).Some? && ItemOf(s, i).value.ToChannel? && ItemOf(s, i).value.c == c)
  }

  /** The references by subscriptions, and the channel's list of them: a channel with a list is in the table. */
  ghost predicate MembersAt(s: State, x: Sid, c: Cid) {
    var ch := ChanOf(s, c);
    && (Member(x) in ch.count.holders <==> SubOf(s, x).parent == Some(c))
    && (x in ch.list <==> SubOf(s, x).listed && SubOf(s, x).parent == Some(c))
    && (x in ch.list ==> Table in ch.count.holders)
  }

  /** The reference by the table. */
  ghost predicate TableAt(s: State, c: Cid) {
    Table in ChanOf(s, c).count.holders <==> c in s.chans && s.chans[c].key in s.table && s.table[s.chans[c].key] == c
  }

  ghost predicate EntryAt(s: State, k: Key) {
    k in s.table ==> s.table[k] in s.chans && s.chans[s.table[k]].key == k
  }

  ghost predicate ChanLockAt(s: State, u: Tid, c: Cid) {
    LocksChan(PcOf(s, u), c) <==> ChanOf(s, c).lock == Some(u)
  }

  /** What an activity knows about the channel it works on. */
  ghost predicate PcAt(s: State, u: Tid) {
    match PcOf(s, u)
    case Joining(join, x, k, c) =>
      && (Unconfirmed(join) || join == Confirmed ==> c in s.chans && s.chans[c].key == k)
      && (join == Confirmed || join == Joined ==> Table in ChanOf(s, c).count.holders)
    case Leaving(at, x, c) =>
      && (InsideOrJustOut(at) ==> SubOf(s, x).parent == Some(c))
      && (at == Emptied ==> Table in ChanOf(s, c).count.holders && ChanOf(s, c).list == {})
    case Parted(x, c) => SubOf(s, x).parent == Some(c)
    case Working(job, c, m, rest, x) =>
      job == Looping || job == LoopSub || job == LoopBoth ==> rest <= ChanOf(s, c).list
    case _ => true
  }

  ghost predicate InvAt(s: State, u: Tid, i: Id, m: Mid, x: Sid, c: Cid, k: Key) {
    && MsgRefsAt(s, u, i, m) && (m in s.msgs ==> Exact(s.msgs[m]))
    && SubRefsAt(s, u, i, x) && SubUsersAt(s, u, x) && (x in s.subs ==> SubOk(s.subs[x]))
    && ChanRefsAt(s, u, i, c) && (c in s.chans ==> Exact(s.chans[c].count))
    && MembersAt(s, x, c) && TableAt(s, c) && EntryAt(s, k) && ChanLockAt(s, u, c) && PcAt(s, u)
  }

  ghost predicate Inv(s: State) {
    forall u: Tid, i: Id, m: Mid, x: Sid, c: Cid, k: Key :: InvAt(s, u, i, m, x, c, k)
  }

}
