/** The deferred task queue: a chain of ring-buffer blocks with a reader end and a writer end,
    and one built-in block that leaves the chain when it is drained and is recycled later.
    Every method here is one critical section under the queue's lock. */
module DeferQueue {
  import opened Sequences

  /** A task; a task without a function (`func == 0`) means "nothing to do". */
  datatype Task = Task(func: nat, arg1: int, arg2: int)

  const NO_TASK := Task(0, 0, 0)

  /** A ring buffer. `state` is 1 while the writer is one lap ahead of the reader, and 2 only for
      the built-in block while it is out of the chain. */
  class Block {
    const tasks: array<Task>
    var next: Block?
    var write: nat
    var read: nat
    var state: nat

    constructor (size: nat)
      ensures fresh(tasks) && tasks.Length == size
      ensures next == null && write == read == state == 0
    {
      tasks := new Task[size](_ => NO_TASK);
      next, write, read, state := null, 0, 0, 0;
    }

    ghost predicate InRing()
      reads `write, `read, `state
    {
      && write < tasks.Length && read < tasks.Length && state <= 1
      && (if state == 0 then read <= write else write <= read)
    }

    /** The tasks held by the block, oldest first. */
    ghost function Held(): seq<Task>
      requires InRing()
      reads `write, `read, `state, tasks
    {
      if state == 0 then tasks[read..write] else tasks[read..] + tasks[..write]
    }

    ghost predicate Stores(part: seq<Task>)
      reads `write, `read, `state, tasks
    {
      InRing() && Held() == part
    }

    method Reset()
      requires tasks.Length >= 1
      modifies this
      ensures Stores([]) && state == 0 && next == null
    {
      write, read, state, next := 0, 0, 0, null;
    }

    method Put(task: Task)
      requires InRing() && (state == 1 ==> write < read)
      modifies `write, `state, tasks
      ensures Stores(old(Held()) + [task])
    {
      ghost var before := tasks[..];
      ghost var w := write;
      tasks[write] := task;
      write := write + 1;
      if write == tasks.Length {
        write := 0;
        state := 1;
      }
      assert tasks[..] == before[w := task];
    }

    method Take() returns (task: Task)
      requires InRing() && Held() != []
      modifies `read, `state
      ensures task == old(Held())[0] && Stores(old(Held())[1..])
      ensures read == write <==> Held() == []
    {
      ghost var held, rest := Held(), if state == 0 then tasks[read + 1..write] else tasks[read + 1..] + tasks[..write];
      assert held[1..] == rest;
      task := tasks[read];
      read := read + 1;
      if read == tasks.Length {
        read := 0;
        state := 0;
      }
      assert Held() == rest;
    }
  }

  lemma FlatAppend(parts: seq<seq<Task>>, task: Task)
    requires parts != []
    ensures var n := |parts| - 1; Flat(parts[n := parts[n] + [task]]) == Flat(parts) + [task]
  {
    var n := |parts| - 1;
    assert parts == parts[..n] + [parts[n]];
    FlatSnoc(parts[..n], parts[n]);
    FlatSnoc(parts[..n], parts[n] + [task]);
    assert parts[n := parts[n] + [task]] == parts[..n] + [parts[n] + [task]];
  }

  lemma FlatFirst(before: seq<seq<Task>>, after: seq<seq<Task>>, task: Task)
    requires before != [] && before[0] != [] && before[0][0] == task && after == before[0 := before[0][1..]]
    ensures Flat(before) == [task] + Flat(after)
  {
    assert before[0] == [task] + after[0];
    assert before[1..] == after[1..];
  }

  /** A chain is drained exactly when it is one empty block, provided only the first may be empty. */
  lemma FlatEmpty(parts: seq<seq<Task>>)
    requires |parts| >= 1
    requires forall i :: 1 <= i < |parts| ==> parts[i] != []
    ensures Flat(parts) == [] <==> |parts| == 1 && parts[0] == []
  {
    if |parts| > 1 {
      assert parts[1..][0] == parts[1];
    }
  }

  class TaskQueue {
    const blockSize: nat
    const staticQueue: Block
    var reader: Block
    var writer: Block
    var countAlloc: nat
    var countDealloc: nat
    ghost var chain: seq<Block>
    ghost var parts: seq<seq<Task>>
    ghost var Repr: set<object>

    /** Blocks are distinct and do not share their task arrays. */
    ghost predicate Owned()
      reads `chain, `Repr
    {
      && staticQueue in Repr && staticQueue.tasks in Repr
      && 1 <= blockSize == staticQueue.tasks.Length
      && (forall b :: b in chain ==> b in Repr && b.tasks in Repr && b.tasks.Length == blockSize)
      && (forall b, c :: b in chain && c in chain && b != c ==> b.tasks != c.tasks)
      && (forall b :: b in chain && b != staticQueue ==> b.tasks != staticQueue.tasks)
      && (forall i, j :: 0 <= i < j < |chain| ==> chain[i] != chain[j])
    }

    ghost predicate Linked()
      reads `chain, `reader, `writer, chain`next
    {
      && 1 <= |chain| && reader == chain[0] && writer == chain[|chain| - 1]
      && writer.next == null
      && (forall i, j :: 0 <= i < |chain| && j == i + 1 < |chain| ==> chain[i].next == chain[j])
    }

    ghost predicate Stored()
      reads `chain, `parts, chain`write, chain`read, chain`state, set b | b in chain :: b.tasks
    {
      && |parts| == |chain|
      && (forall i :: 0 <= i < |chain| ==> chain[i].Stores(parts[i]))
    }

    /** Blocks of the chain that came from the allocator. */
    ghost function HeapBlocks(): int
      reads `chain
    {
      |chain| - (if staticQueue in chain then 1 else 0)
    }

    /** The built-in block's state tells whether it is in the chain; the counters balance. */
    ghost predicate Balanced()
      reads `chain, `countAlloc, `countDealloc, staticQueue`state, staticQueue`next
    {
      && (staticQueue in chain <==> staticQueue.state != 2)
      && (staticQueue.state == 2 ==> staticQueue.next == null)
      && countAlloc == countDealloc + HeapBlocks()
    }

    /** Only the reader's block may be empty, and then it is the built-in block alone. */
    ghost predicate Tight()
      reads `chain, `parts
    {
      && 1 <= |parts|
      && (forall i :: 1 <= i < |parts| ==> parts[i] != [])
      && (parts[0] == [] ==> chain == [staticQueue])
    }

    ghost predicate Valid()
      reads this, Repr
    {
      this in Repr && Owned() && Linked() && Stored() && Balanced() && Tight()
    }

    /** The queue as a plain sequence, oldest task first. */
    ghost function Contents(): seq<Task>
      reads `parts
    {
      Flat(parts)
    }

    constructor (size: nat)
      requires size >= 1
      ensures Valid() && fresh(Repr) && Contents() == []
      ensures blockSize == size && countAlloc == countDealloc == 0
    {
      var b := new Block(size);
      blockSize, staticQueue, reader, writer := size, b, b, b;
      countAlloc, countDealloc := 0, 0;
      chain, parts := [b], [[]];
      Repr := {this, b, b.tasks};
    }

    /** A block can be taken into the chain: it shares nothing with the blocks already there. */
    ghost predicate Apart(added: Block)
      reads `chain
    {
      && added !in chain && added.tasks.Length == blockSize
      && (added == staticQueue || added.tasks != staticQueue.tasks)
      && (forall b :: b in chain ==> b.tasks != added.tasks)
    }

    /** Resets a block and links it behind the writer. */
    method Link(added: Block)
      requires Owned() && Linked() && Stored() && Apart(added)
      modifies `chain, `parts, `Repr, `writer, writer`next, added
      ensures Repr == old(Repr) + {added, added.tasks}
      ensures chain == old(chain) + [added] && parts == old(parts) + [[]]
      ensures Owned() && Linked() && Stored()
      ensures writer == added && writer.state == 0
    {
      Rewire(added);
      Extend(added);
    }

    /** The pointer part of `Link`. */
    method Rewire(added: Block)
      requires Owned() && Linked() && Stored() && Apart(added)
      modifies `writer, writer`next, added
      ensures Stored() && added.Stores([]) && added.state == 0
      ensures writer == added && added.next == null
      ensures forall i, j :: 0 <= i < |chain| && j == i + 1 < |chain| ==> chain[i].next == chain[j]
      ensures chain[|chain| - 1].next == added
    {
      writer.next := added;
      writer := added;
      added.Reset();
    }

    ghost method Extend(added: Block)
      requires Owned() && Stored() && Apart(added) && added.Stores([])
      modifies `chain, `parts, `Repr
      ensures chain == old(chain) + [added] && parts == old(parts) + [[]]
      ensures Repr == old(Repr) + {added, added.tasks}
      ensures Owned() && Stored()
    {
      Repr := Repr + {added, added.tasks};
      chain := chain + [added];
      parts := parts + [[]];
    }

    /** The block to push into once the writer's block is full: the built-in block if it is out of
        the chain, otherwise one from the allocator. */
    method NewBlock() returns (added: Block)
      requires Owned() && Balanced()
      modifies `countAlloc
      ensures Apart(added)
      ensures staticQueue.state == 2 ==> added == staticQueue && countAlloc == old(countAlloc)
      ensures staticQueue.state != 2 ==> fresh(added) && fresh(added.tasks) && countAlloc == old(countAlloc) + 1
    {
      if staticQueue.state == 2 {
        added := staticQueue;
      } else {
        added := new Block(blockSize);
        countAlloc := countAlloc + 1;
      }
    }

    /** The chain is consistent and the writer's block has room for a task; only that block may be
        empty. */
    ghost predicate Ready()
      reads this, Repr
    {
      && this in Repr && Owned() && Linked() && Stored() && Balanced()
      && (writer.state == 1 ==> writer.write < writer.read)
      && (forall i :: 0 <= i < |parts| - 1 ==> parts[i] != [])
    }

    /** If the writer's block is full, chains another block behind it. */
    method MakeRoom()
      requires Valid()
      modifies Repr
      ensures Ready() && fresh(Repr - old(Repr))
      ensures Contents() == old(Contents())
      ensures countDealloc == old(countDealloc)
    {
      WriterPart();
      if writer.state == 1 && writer.write == writer.read {
        Grow();
        FlatSnoc(old(parts), []);
      }
    }

    method Grow()
      requires Valid()
      modifies Repr
      ensures this in Repr && fresh(Repr - old(Repr))
      ensures Owned() && Linked() && Stored() && Balanced()
      ensures parts == old(parts) + [[]] && writer.state == 0
      ensures countDealloc == old(countDealloc)
    {
      var added := NewBlock();
      Link(added);
    }

    lemma WriterPart()
      requires Valid()
      ensures writer.state == 1 ==> writer.write <= writer.read
      ensures writer.state == 1 ==> forall i :: 0 <= i < |parts| ==> parts[i] != []
    {
      assert chain[|chain| - 1].Stores(parts[|parts| - 1]);
    }

    method Place(task: Task)
      requires Ready()
      modifies `parts, writer`write, writer`state, writer.tasks
      ensures Valid()
      ensures Contents() == old(Contents()) + [task]
    {
      PlaceInBlock(task);
      FlatAppend(old(parts), task);
    }

    method PlaceInBlock(task: Task)
      requires Owned() && Linked() && Stored() && Balanced()
      requires writer.state == 1 ==> writer.write < writer.read
      modifies `parts, writer`write, writer`state, writer.tasks
      ensures Stored() && Linked() && Balanced()
      ensures var n := |old(parts)| - 1; parts == old(parts)[n := old(parts)[n] + [task]]
    {
      ghost var n := |chain| - 1;
      assert chain[n].Stores(parts[n]);
      assert writer.Held() == parts[n];
      writer.Put(task);
      hide Block.Stores;
      parts := parts[n := parts[n] + [task]];
    }

    method Push(task: Task)
      requires Valid()
      modifies Repr
      ensures Valid() && fresh(Repr - old(Repr))
      ensures Contents() == old(Contents()) + [task]
      ensures countDealloc == old(countDealloc)
    {
      MakeRoom();
      Place(task);
    }

    /** Takes the oldest task out of the reader's block; the chain itself does not change. */
    method TakeFront() returns (task: Task)
      requires Owned() && Linked() && Stored() && parts[0] != []
      modifies `parts, reader`read, reader`state
      ensures Stored() && reader.state <= 1
      ensures parts == old(parts)[0 := old(parts)[0][1..]] && task == old(parts)[0][0]
      ensures reader.read == reader.write <==> parts[0] == []
    {
      assert chain[0].Stores(parts[0]);
      task := reader.Take();
      parts := parts[0 := parts[0][1..]];
    }

    /** The reader's block is used up and another follows: it leaves the chain. */
    method Advance()
      requires Owned() && Linked() && Stored() && Balanced() && this in Repr
      requires reader.next != null && parts[0] == []
      requires forall i :: 1 <= i < |parts| ==> parts[i] != []
      modifies `reader, `chain, `parts, `countDealloc, staticQueue`state, staticQueue`next
      ensures Valid() && parts == old(parts)[1..]
    {
      var toFree := reader;
      DropHead();
      Release(toFree);
    }

    method DropHead()
      requires Owned() && Linked() && Stored() && reader.next != null
      modifies `reader, `chain, `parts
      ensures Owned() && Linked() && Stored()
      ensures chain == old(chain)[1..] && parts == old(parts)[1..]
      ensures old(reader) !in chain && old(reader) == old(chain)[0]
    {
      assert |chain| > 1 && reader.next == chain[1];
      reader := reader.next;
      chain := chain[1..];
      parts := parts[1..];
    }

    /** A block left the chain: the built-in block is parked, any other goes back to the allocator. */
    method Release(toFree: Block)
      requires Owned() && Linked() && Stored() && toFree !in chain
      requires toFree == staticQueue || (staticQueue in chain <==> staticQueue.state != 2)
      requires staticQueue.state == 2 ==> staticQueue.next == null
      requires countAlloc == countDealloc + HeapBlocks() + if toFree == staticQueue then 0 else 1
      modifies `countDealloc, staticQueue`state, staticQueue`next
      ensures Linked() && Stored() && Balanced()
    {
      if toFree == staticQueue {
        staticQueue.state := 2;
        staticQueue.next := null;
      } else {
        countDealloc := countDealloc + 1;
      }
    }

    lemma FollowedUnlessLast()
      requires Linked()
      ensures |chain| > 1 ==> reader.next != null
    {
      if |chain| > 1 {
        assert chain[0].next == chain[1];
      }
    }

    /** The only block is used up: the queue moves back to the built-in block. */
    method Rewind()
      requires Owned() && Linked() && Stored() && Balanced() && this in Repr
      requires reader.next == null && parts[0] == []
      modifies `reader, `writer, `chain, `parts, `countDealloc, reader, staticQueue
      ensures Valid() && parts == [[]]
    {
      FollowedUnlessLast();
      if reader != staticQueue && staticQueue.state == 2 {
        writer := staticQueue;
        reader := staticQueue;
        chain := [staticQueue];
        countDealloc := countDealloc + 1;
      }
      reader.write, reader.read, reader.state := 0, 0, 0;
    }

    /** The oldest task, or `NO_TASK` when the queue is empty. */
    method Pop() returns (task: Task)
      requires Valid()
      modifies Repr
      ensures Valid() && fresh(Repr - old(Repr))
      ensures old(Contents()) == [] ==> task == NO_TASK && Contents() == []
      ensures old(Contents()) != [] ==> old(Contents()) == [task] + Contents()
      ensures countAlloc == old(countAlloc)
    {
      ReaderPart();
      if reader.write == reader.read && reader.state == 0 {
        return NO_TASK;
      }
      task := TakeFront();
      FlatFirst(old(parts), parts, task);
      Settle();
    }

    /** Moves the reader on if its block is used up. */
    method Settle()
      requires Owned() && Linked() && Stored() && Balanced() && this in Repr
      requires reader.read == reader.write <==> parts[0] == []
      requires forall i :: 1 <= i < |parts| ==> parts[i] != []
      modifies `reader, `writer, `chain, `parts, `countDealloc, reader, staticQueue
      ensures Valid() && Contents() == old(Contents())
    {
      if reader.write == reader.read {
        assert Flat(parts) == Flat(parts[1..]);
        if reader.next != null {
          Advance();
        } else {
          FollowedUnlessLast();
          assert parts == [[]];
          Rewind();
        }
      }
    }

    lemma ReaderPart()
      requires Valid()
      ensures reader.write == reader.read && reader.state == 0 <==> parts[0] == []
      ensures Contents() == [] <==> parts[0] == []
    {
      assert chain[0].Stores(parts[0]);
      FlatEmpty(parts);
    }

    /** Drops every task and every allocated block; the built-in block starts over. */
    method Clear()
      requires Valid()
      modifies Repr
      ensures Valid() && Repr == old(Repr)
      ensures Contents() == [] && chain == [staticQueue]
      ensures countAlloc == countDealloc == old(countAlloc)
    {
      FreeBlocks();
      Restart();
    }

    method FreeBlocks()
      requires Owned() && Linked()
      modifies `countDealloc
      ensures countDealloc == old(countDealloc) + HeapBlocks()
    {
      var pos: Block? := reader;
      ghost var k := 0;
      while pos != null
        invariant 0 <= k <= |chain| && pos == (if k < |chain| then chain[k] else null)
        invariant countDealloc == old(countDealloc) + k - (if staticQueue in chain[..k] then 1 else 0)
        decreases |chain| - k
      {
        if pos != staticQueue {
          countDealloc := countDealloc + 1;
        }
        assert k + 1 < |chain| ==> chain[k].next == chain[k + 1];
        assert chain[..k + 1] == chain[..k] + [chain[k]];
        pos := pos.next;
        k := k + 1;
      }
      assert chain[..k] == chain;
    }

    method Restart()
      requires Owned() && this in Repr && countAlloc == countDealloc
      modifies `reader, `writer, `chain, `parts, staticQueue
      ensures Valid() && Contents() == [] && chain == [staticQueue]
    {
      staticQueue.Reset();
      reader, writer := staticQueue, staticQueue;
      chain, parts := [staticQueue], [[]];
      FlatSnoc<Task>([], []);
    }

    /** A drained queue sits on the built-in block alone, with no allocated block outstanding. */
    lemma DrainedIsStatic()
      requires Valid() && Contents() == []
      ensures chain == [staticQueue] && staticQueue.state != 2 && countAlloc == countDealloc
    {
      FlatEmpty(parts);
    }
  }

  // ---------------------------------------------------------------------------------------------
  // Histories

  datatype Op = Push(task: Task) | Pop | Clear

  /** The plain FIFO queue that specifies one operation. */
  ghost function FifoStep(q: seq<Task>, op: Op): seq<Task> {
    match op
    case Push(t) => q + [t]
    case Pop => if q == [] then [] else q[1..]
    case Clear => []
  }

  ghost function FifoAfter(q: seq<Task>, ops: seq<Op>): seq<Task>
    decreases ops
  {
    if ops == [] then q else FifoAfter(FifoStep(q, ops[0]), ops[1..])
  }

  /** What the pops of a history return, in order. */
  ghost function FifoReturns(q: seq<Task>, ops: seq<Op>): seq<Task>
    decreases ops
  {
    if ops == [] then [] else
    (if ops[0].Pop? then [if q == [] then NO_TASK else q[0]] else []) + FifoReturns(FifoStep(q, ops[0]), ops[1..])
  }

  ghost function Pushed(ops: seq<Op>): seq<Task> {
    if ops == [] then [] else (if ops[0].Push? then [ops[0].task] else []) + Pushed(ops[1..])
  }

  /** The tasks that leave the queue, in order: handed out by a pop or dropped by a clear. */
  ghost function Leaving(q: seq<Task>, ops: seq<Op>): seq<Task>
    decreases ops
  {
    if ops == [] then [] else
    (match ops[0]
     case Push(_) => []
     case Pop => if q == [] then [] else [q[0]]
     case Clear => q) + Leaving(FifoStep(q, ops[0]), ops[1..])
  }

  /** No task is lost, duplicated or reordered by any history of the FIFO specification. */
  lemma {:induction false} FifoConserves(q: seq<Task>, ops: seq<Op>)
    ensures q + Pushed(ops) == Leaving(q, ops) + FifoAfter(q, ops)
    decreases ops
  {
    if ops != [] {
      var next := FifoStep(q, ops[0]);
      FifoConserves(next, ops[1..]);
      var rest, out, after := Pushed(ops[1..]), Leaving(next, ops[1..]), FifoAfter(next, ops[1..]);
      match ops[0]
      case Push(t) =>
        Regroup(q, [t], rest);
      case Pop =>
        if q != [] {
          Regroup([q[0]], q[1..], rest);
          Regroup([q[0]], out, after);
        }
      case Clear =>
        Regroup(q, out, after);
    }
  }

  lemma {:induction false} HistorySplit(q: seq<Task>, ops: seq<Op>, op: Op)
    ensures FifoAfter(q, ops + [op]) == FifoStep(FifoAfter(q, ops), op)
    ensures FifoReturns(q, ops + [op]) == FifoReturns(q, ops) + FifoReturns(FifoAfter(q, ops), [op])
    decreases ops
  {
    if ops == [] {
      assert ops + [op] == [op];
    } else {
      hide FifoStep;
      assert (ops + [op])[1..] == ops[1..] + [op];
      var next := FifoStep(q, ops[0]);
      HistorySplit(next, ops[1..], op);
      var first := if ops[0].Pop? then [if q == [] then NO_TASK else q[0]] else [];
      Regroup(first, FifoReturns(next, ops[1..]), FifoReturns(FifoAfter(q, ops), [op]));
    }
  }

  /** Every history on the block chain refines the plain FIFO queue. */
  method RunHistory(queue: TaskQueue, ops: seq<Op>) returns (returned: seq<Task>)
    requires queue.Valid()
    modifies queue.Repr
    ensures queue.Valid() && fresh(queue.Repr - old(queue.Repr))
    ensures queue.Contents() == FifoAfter(old(queue.Contents()), ops)
    ensures returned == FifoReturns(old(queue.Contents()), ops)
  {
    hide Flat, TaskQueue.Owned, TaskQueue.Linked, TaskQueue.Stored, TaskQueue.Balanced, TaskQueue.Tight;
    returned := [];
    ghost var start := queue.Contents();
    for i := 0 to |ops|
      invariant queue.Valid() && fresh(queue.Repr - old(queue.Repr))
      invariant queue.Contents() == FifoAfter(start, ops[..i])
      invariant returned == FifoReturns(start, ops[..i])
    {
      assert ops[..i + 1] == ops[..i] + [ops[i]];
      HistorySplit(start, ops[..i], ops[i]);
      match ops[i] {
        case Push(t) => queue.Push(t);
        case Pop =>
          var task := queue.Pop();
          returned := returned + [task];
        case Clear => queue.Clear();
      }
    }
    assert ops[..|ops|] == ops;
  }
}
