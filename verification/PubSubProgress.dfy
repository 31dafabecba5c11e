/** No activity gets stuck: each can go on unless it waits for a lock, and whoever has that lock can go on or waits
    for the lock of a channel, whose holder can go on. */
module PubSubProgress {
  import opened Options
  import opened PubSub
  import opened PubSubSteps
  import opened PubSubRuns
  import opened PubSubDeliveries

  /** The activity can take a step of its own call or task; what sockets do is not one. */
  ghost predicate Moves(s: State, t: Tid) {
    exists a: Action, s': State :: !a.SendOut? && !a.OutDone? && Next(s, t, a, s')
  }

  function WithMsg(s: State, m: Mid, count: Count): State {
    s.(msgs := s.msgs[m := count])
  }

  lemma {:induction false} Above(keys: set<nat>) returns (m: nat)
    ensures forall k | k in keys :: k < m
    decreases |keys|
  {
    if keys == {} {
      m := 0;
    } else {
      var k :| k in keys;
      var rest := Above(keys - {k});
      assert keys == (keys - {k}) + {k};
      m := if k < rest then rest else k + 1;
    }
  }

  lemma ByPublishStep(s: State, t: Tid, a: Action, s': State)
    requires PartOf(a) == InPublish && !a.SendOut? && !a.OutDone? && PublishStep(s, t, a, s')
    ensures Moves(s, t)
  {
    hide PublishStep;
    assert Next(s, t, a, s');
  }

  lemma ByWorkStep(s: State, t: Tid, a: Action, s': State)
    requires PartOf(a) == InWork && WorkStep(s, t, a, s')
    ensures Moves(s, t)
  {
    hide WorkStep;
    assert Next(s, t, a, s');
  }

  lemma ByLoopStep(s: State, t: Tid, a: Action, s': State)
    requires PartOf(a) == InLoop && LoopStep(s, t, a, s')
    ensures Moves(s, t)
  {
    hide LoopStep;
    assert Next(s, t, a, s');
  }

  lemma ByCallStep(s: State, t: Tid, a: Action, s': State)
    requires PartOf(a) == InCall && CallStep(s, t, a, s')
    ensures Moves(s, t)
  {
    hide CallStep;
    assert Next(s, t, a, s');
  }

  lemma ByReleaseStep(s: State, t: Tid, a: Action, s': State)
    requires PartOf(a) == InRelease && ReleaseStep(s, t, a, s')
    ensures Moves(s, t)
  {
    hide ReleaseStep;
    assert Next(s, t, a, s');
  }

  lemma ByJoinStep(s: State, t: Tid, a: Action, s': State)
    requires PartOf(a) == InJoin && JoinStep(s, t, a, s')
    ensures Moves(s, t)
  {
    hide JoinStep;
    assert Next(s, t, a, s');
  }

  lemma ByLeaveStep(s: State, t: Tid, a: Action, s': State)
    requires PartOf(a) == InLeave && LeaveStep(s, t, a, s')
    ensures Moves(s, t)
  {
    hide LeaveStep;
    assert Next(s, t, a, s');
  }

  lemma ByQuitStep(s: State, t: Tid, a: Action, s': State)
    requires PartOf(a) == InQuit && QuitStep(s, t, a, s')
    ensures Moves(s, t)
  {
    hide QuitStep;
    assert Next(s, t, a, s');
  }

  lemma ByPutStep(s: State, t: Tid, a: Action, s': State)
    requires PartOf(a) == InPut && PutStep(s, t, a, s')
    ensures Moves(s, t)
  {
    hide PutStep;
    assert Next(s, t, a, s');
  }

  lemma PuttingMoves(s: State, t: Tid)
    requires Putting(s, PcOf(s, t)).Some?
    ensures Moves(s, t)
  {
    hide Next, Moves;
    var i := Above(s.queue.Keys);
    var (item, second, next) := Putting(s, PcOf(s, t)).value;
    var s1 := WithMsg(Goes(s, t, next), item.m, Move(MsgOf(s, item.m), Held(t, second), Task(i))).(queue := s.queue[i := item]);
    var s' := if item.ToChannel? then WithChan(s1, item.c, ChanMoved(ChanOf(s, item.c), Mine(t), Task(i)))
              else WithSub(s1, item.x, SubMoved(SubOf(s, item.x), Mine(t), Task(i)));
    assert PutStep(s, t, Put(i), s');
    ByPutStep(s, t, Put(i), s');
  }

  lemma PublishingMoves(s: State, t: Tid)
    requires PcOf(s, t).Publishing? && PcOf(s, t).pub != Copied
    ensures Moves(s, t)
  {
    hide Next, Moves, PcOf, SubOf, ChanOf, MsgOf, Dup, Drop, ChanDup, ChanDrop, Released;
    var pc := PcOf(s, t);
    var key: Key :| pc.left != {} ==> key in pc.left;
    if pc.pub == Found {
      var s' := WithMsg(Goes(s, t, pc.(pub := Copied)), pc.m, Dup(MsgOf(s, pc.m), Held(t, true)));
      assert PublishStep(s, t, Copy, s');
      ByPublishStep(s, t, Copy, s');
    } else if pc.left == {} {
      var s' := WithMsg(Goes(s, t, Idle), pc.m, Drop(MsgOf(s, pc.m), Mine(t)));
      assert PublishStep(s, t, Finish, s');
      ByPublishStep(s, t, Finish, s');
    } else if key in s.table {
      var s' := WithChan(Goes(s, t, pc.(pub := Found, c := s.table[key], left := pc.left - {key})), s.table[key],
                        ChanDup(ChanOf(s, s.table[key]), Mine(t)));
      assert PublishStep(s, t, Find(key), s');
      ByPublishStep(s, t, Find(key), s');
    } else {
      var s' := Goes(s, t, pc.(left := pc.left - {key}));
      assert PublishStep(s, t, Miss(key), s');
      ByPublishStep(s, t, Miss(key), s');
    }
  }

  lemma WorkingMoves(s: State, t: Tid)
    requires PcOf(s, t).Working? && !Loops(PcOf(s, t)) && (PcOf(s, t).job == JobTaken ==> ChanOf(s, PcOf(s, t).c).lock == None)
    ensures Moves(s, t)
  {
    hide Next, Moves, PcOf, SubOf, ChanOf, MsgOf, Dup, Drop, ChanDup, ChanDrop, Released;
    var pc := PcOf(s, t);
    if pc.job == JobTaken {
      var s' := WithChan(Goes(s, t, pc.(job := Looping, rest := ChanOf(s, pc.c).list)), pc.c, ChanOf(s, pc.c).(lock := Some(t)));
      assert WorkStep(s, t, LockTask, s');
      ByWorkStep(s, t, LockTask, s');
    } else if pc.job == LoopDone {
      var s' := WithChan(Goes(s, t, pc.(job := JobDone)), pc.c, ChanOf(s, pc.c).(lock := None));
      assert WorkStep(s, t, UnlockTask, s');
      ByWorkStep(s, t, UnlockTask, s');
    } else {
      var s' := WithChan(Goes(s, t, Idle), pc.c, ChanDrop(ChanOf(s, pc.c), Mine(t)));
      assert WorkStep(s, t, DropChannel, s');
      ByWorkStep(s, t, DropChannel, s');
    }
  }

  lemma LoopEnds(s: State, t: Tid)
    requires PcOf(s, t).Working? && PcOf(s, t).job == Looping && PcOf(s, t).rest == {}
    ensures Moves(s, t)
  {
    hide Next, Moves, PcOf, SubOf, ChanOf, MsgOf, Dup, Drop, ChanDup, ChanDrop, Released;
    var pc := PcOf(s, t);
    var s' := WithMsg(Goes(s, t, pc.(job := LoopDone)), pc.m, Drop(MsgOf(s, pc.m), Mine(t)));
    assert WorkStep(s, t, EndLoop, s');
    ByWorkStep(s, t, EndLoop, s');
  }

  lemma LoopMoves(s: State, t: Tid)
    requires Loops(PcOf(s, t)) && PcOf(s, t).job != LoopBoth && (PcOf(s, t).job == Looping ==> PcOf(s, t).rest != {})
    ensures Moves(s, t)
  {
    hide Next, Moves, PcOf, SubOf, ChanOf, MsgOf, Dup, Drop, ChanDup, ChanDrop, Released;
    var pc := PcOf(s, t);
    var x: Sid :| pc.job == Looping ==> x in pc.rest;
    if pc.job == LoopSub {
      var s' := WithMsg(Goes(s, t, pc.(job := LoopBoth)), pc.m, Dup(MsgOf(s, pc.m), Held(t, true)));
      assert LoopStep(s, t, CopyFor, s');
      ByLoopStep(s, t, CopyFor, s');
    } else if SubOf(s, x).mock {
      var s' := Goes(s, t, pc.(rest := pc.rest - {x}));
      assert LoopStep(s, t, NextSub(x), s');
      ByLoopStep(s, t, NextSub(x), s');
    } else {
      var s' := WithSub(Goes(s, t, pc.(job := LoopSub, rest := pc.rest - {x}, x := x)), x,
                       SubOf(s, x).(count := Dup(SubOf(s, x).count, Mine(t))));
      assert LoopStep(s, t, NextSub(x), s');
      ByLoopStep(s, t, NextSub(x), s');
    }
  }

  lemma DeliveringMoves(s: State, t: Tid)
    requires PcOf(s, t).Delivering? && (PcOf(s, t).del == Locked || (PcOf(s, t).del == Taken && SubOf(s, PcOf(s, t).x).lock == None))
    ensures Moves(s, t)
  {
    hide Next, Moves, PcOf, SubOf, ChanOf, MsgOf, Dup, Drop, ChanDup, ChanDrop, Released;
    var pc := PcOf(s, t);
    if pc.del == Taken {
      var s' := WithSub(Goes(s, t, pc.(del := Locked)), pc.x, SubOf(s, pc.x).(lock := Some(t)));
      assert CallStep(s, t, LockDelivery, s');
      ByCallStep(s, t, LockDelivery, s');
    } else if pc.del == Locked && SubOf(s, pc.x).silent {
      var s' := Goes(s, t, pc.(del := Ran, again := false));
      assert CallStep(s, t, Look, s');
      ByCallStep(s, t, Look, s');
    } else {
      var s' := WithSub(Goes(s, t, pc.(del := Running)), pc.x, SubOf(s, pc.x).(starts := SubOf(s, pc.x).starts + 1));
      assert CallStep(s, t, Look, s');
      ByCallStep(s, t, Look, s');
    }
  }

  lemma ReturningMoves(s: State, t: Tid)
    requires PcOf(s, t).Delivering? && (PcOf(s, t).del == Running || PcOf(s, t).del == Ran || PcOf(s, t).del == Finishing)
    ensures Moves(s, t)
  {
    hide Next, Moves, PcOf, SubOf, ChanOf, MsgOf, Dup, Drop, ChanDup, ChanDrop, Released;
    var pc := PcOf(s, t);
    if pc.del == Running {
      var s' := Goes(s, t, pc.(del := Ran, again := false));
      assert CallStep(s, t, Return(false), s');
      ByCallStep(s, t, Return(false), s');
    } else if pc.del == Ran {
      var s' := WithSub(Goes(s, t, pc.(del := if pc.again then Again else Finishing)), pc.x, SubOf(s, pc.x).(lock := None));
      assert CallStep(s, t, UnlockSub, s');
      ByCallStep(s, t, UnlockSub, s');
    } else {
      var s' := WithMsg(Goes(s, t, pc.(del := LettingGo)), pc.m, Drop(MsgOf(s, pc.m), Mine(t)));
      assert CallStep(s, t, DropMsg, s');
      ByCallStep(s, t, DropMsg, s');
    }
  }

  lemma LettingGoMoves(s: State, t: Tid)
    requires PcOf(s, t).Delivering? && PcOf(s, t).del == LettingGo
    ensures Moves(s, t)
  {
    hide Next, Moves, PcOf, SubOf, ChanOf, MsgOf, Dup, Drop, ChanDup, ChanDrop, Released;
    var pc := PcOf(s, t);
    var next := if SubOf(s, pc.x).count.ref - 1 == 0 then Ending(pc.x) else Idle;
    var s' := WithSub(Goes(s, t, next), pc.x, Released(SubOf(s, pc.x), t, Mine(t)));
    assert ReleaseStep(s, t, LetGo, s');
    ByReleaseStep(s, t, LetGo, s');
  }

  lemma UnlockedMoves(s: State, t: Tid)
    requires PcOf(s, t).Leaving? && PcOf(s, t).leave == Unlocked
    ensures Moves(s, t)
  {
    hide Next, Moves, PcOf, SubOf, ChanOf, MsgOf, Dup, Drop, ChanDup, ChanDrop, Released;
    var pc := PcOf(s, t);
    var next := if SubOf(s, pc.x).count.ref - 1 == 0 then Ending(pc.x) else Idle;
    var s' := WithSub(Goes(s, t, next), pc.x, Released(SubOf(s, pc.x), t, Owner).(phase := Gone));
    assert ReleaseStep(s, t, LetGoLast, s');
    ByReleaseStep(s, t, LetGoLast, s');
  }

  lemma PartingMoves(s: State, t: Tid)
    requires (PcOf(s, t).Ending? && SubOf(s, PcOf(s, t).x).parent.Some?) || PcOf(s, t).Parted?
    ensures Moves(s, t)
  {
    hide Next, Moves, PcOf, SubOf, ChanOf, MsgOf, Dup, Drop, ChanDup, ChanDrop, Released;
    var pc := PcOf(s, t);
    if pc.Ending? {
      var s' := WithSub(Goes(s, t, Parted(pc.x, SubOf(s, pc.x).parent.value)), pc.x, SubOf(s, pc.x).(calls := SubOf(s, pc.x).calls + 1, end := Parting(t)));
      assert ReleaseStep(s, t, CallUnsub, s');
      ByReleaseStep(s, t, CallUnsub, s');
    } else {
      var s' := WithChan(WithSub(Goes(s, t, Idle), pc.x, SubOf(s, pc.x).(parent := None, end := Ended)),
                        pc.c, ChanDrop(ChanOf(s, pc.c), Member(pc.x)));
      assert ReleaseStep(s, t, DropParent, s');
      ByReleaseStep(s, t, DropParent, s');
    }
  }

  lemma LookingUpMoves(s: State, t: Tid)
    requires PcOf(s, t).Joining? && (PcOf(s, t).join == Start || PcOf(s, t).join == Retry)
    ensures Moves(s, t)
  {
    hide Next, Moves, PcOf, SubOf, ChanOf, MsgOf, Dup, Drop, ChanDup, ChanDrop, Released;
    var pc := PcOf(s, t);
    var c := Above(s.chans.Keys);
    if pc.key in s.table {
      var s' := Goes(s, t, pc.(join := Looked, c := s.table[pc.key]));
      assert JoinStep(s, t, LookUp(s.table[pc.key]), s');
      ByJoinStep(s, t, LookUp(s.table[pc.key]), s');
    } else {
      var s' := WithChan(Goes(s, t, pc.(join := Looked, c := c)), c, Channel(Count(1, {Table}, 0), pc.key, None, {}))
                .(table := s.table[pc.key := c]);
      assert JoinStep(s, t, LookUp(c), s');
      ByJoinStep(s, t, LookUp(c), s');
    }
  }

  lemma JoiningMoves(s: State, t: Tid)
    requires PcOf(s, t).Joining? && (PcOf(s, t).join == Checking || (PcOf(s, t).join == Looked && ChanOf(s, PcOf(s, t).c).lock == None))
    ensures Moves(s, t)
  {
    hide Next, Moves, PcOf, SubOf, ChanOf, MsgOf, Dup, Drop, ChanDup, ChanDrop, Released;
    var pc := PcOf(s, t);
    if pc.join == Looked {
      var s' := WithChan(Goes(s, t, pc.(join := Checking)), pc.c, ChanOf(s, pc.c).(lock := Some(t)));
      assert JoinStep(s, t, LockChannel, s');
      ByJoinStep(s, t, LockChannel, s');
    } else {
      CheckingMoves(s, t);
    }
  }

  lemma CheckingMoves(s: State, t: Tid)
    requires PcOf(s, t).Joining? && PcOf(s, t).join == Checking
    ensures Moves(s, t)
  {
    hide Next, Moves, PcOf, SubOf, ChanOf, MsgOf, Dup, Drop, ChanDup, ChanDrop, Released;
    var pc := PcOf(s, t);
    var s' := if pc.key in s.table && s.table[pc.key] == pc.c then Goes(s, t, pc.(join := Confirmed))
              else WithChan(Goes(s, t, pc.(join := Retry)), pc.c, ChanOf(s, pc.c).(lock := None));
    assert JoinStep(s, t, Check, s');
    ByJoinStep(s, t, Check, s');
  }

  lemma LinkingMoves(s: State, t: Tid)
    requires PcOf(s, t).Joining? && (PcOf(s, t).join == Confirmed || PcOf(s, t).join == Joined)
    ensures Moves(s, t)
  {
    hide Next, Moves, PcOf, SubOf, ChanOf, MsgOf, Dup, Drop, ChanDup, ChanDrop, Released;
    var pc := PcOf(s, t);
    if pc.join == Confirmed {
      var s' := WithChan(WithSub(Goes(s, t, pc.(join := Joined)), pc.x, SubOf(s, pc.x).(parent := Some(pc.c), listed := true, phase := Active)),
                        pc.c, ChanDup(ChanOf(s, pc.c), Member(pc.x)).(list := ChanOf(s, pc.c).list + {pc.x}));
      assert JoinStep(s, t, Link, s');
      ByJoinStep(s, t, Link, s');
    } else {
      var s' := WithChan(Goes(s, t, Idle), pc.c, ChanOf(s, pc.c).(lock := None));
      assert JoinStep(s, t, LeaveChannel, s');
      ByJoinStep(s, t, LeaveChannel, s');
    }
  }

  lemma UnlinkingMoves(s: State, t: Tid)
    requires PcOf(s, t).Leaving? && PcOf(s, t).leave == InChannel
    ensures Moves(s, t)
  {
    hide Next, Moves, PcOf, SubOf, ChanOf, MsgOf, Dup, Drop, ChanDup, ChanDrop, Released;
    var pc := PcOf(s, t);
    var ch := ChanOf(s, pc.c).(list := ChanOf(s, pc.c).list - {pc.x});
    var s' := WithChan(WithSub(Goes(s, t, pc.(leave := if ch.list == {} then Emptied else Unlinked)), pc.x,
                               SubOf(s, pc.x).(listed := false)), pc.c, ch);
    assert LeaveStep(s, t, Unlink, s');
    ByLeaveStep(s, t, Unlink, s');
  }

  lemma EnteringMoves(s: State, t: Tid)
    requires PcOf(s, t).Leaving? && (PcOf(s, t).leave == First || PcOf(s, t).leave == SubLocked || PcOf(s, t).leave == InChannel)
      && (PcOf(s, t).leave == First ==> SubOf(s, PcOf(s, t).x).lock == None)
      && (PcOf(s, t).leave == SubLocked ==> SubOf(s, PcOf(s, t).x).parent.Some? && ChanOf(s, SubOf(s, PcOf(s, t).x).parent.value).lock == None)
    ensures Moves(s, t)
  {
    hide Next, Moves, PcOf, SubOf, ChanOf, MsgOf, Dup, Drop, ChanDup, ChanDrop, Released;
    var pc := PcOf(s, t);
    if pc.leave == First {
      var s' := WithSub(Goes(s, t, pc.(leave := SubLocked)), pc.x, SubOf(s, pc.x).(lock := Some(t)));
      assert LeaveStep(s, t, LockSub, s');
      ByLeaveStep(s, t, LockSub, s');
    } else if pc.leave == SubLocked {
      var s' := var c := SubOf(s, pc.x).parent.value; WithChan(Goes(s, t, pc.(leave := InChannel, c := c)), c, ChanOf(s, c).(lock := Some(t)));
      assert LeaveStep(s, t, EnterChannel, s');
      ByLeaveStep(s, t, EnterChannel, s');
    } else {
      UnlinkingMoves(s, t);
    }
  }

  lemma QuittingMoves(s: State, t: Tid)
    requires PcOf(s, t).Leaving? && PcOf(s, t).leave == Emptied
    ensures Moves(s, t)
  {
    hide Next, Moves, PcOf, SubOf, ChanOf, MsgOf, Dup, Drop, ChanDup, ChanDrop, Released;
    var pc := PcOf(s, t);
    var k := ChanOf(s, pc.c).key;
    if pc.leave == Emptied && ChanOf(s, pc.c).list == {} && k in s.table {
      var s' := WithChan(Goes(s, t, pc.(leave := Unlinked)), s.table[k], ChanDrop(ChanOf(s, s.table[k]), Table)).(table := s.table - {k});
      assert QuitStep(s, t, Retire, s');
      ByQuitStep(s, t, Retire, s');
    } else {
      var s' := Goes(s, t, pc.(leave := Unlinked));
      assert QuitStep(s, t, Retire, s');
      ByQuitStep(s, t, Retire, s');
    }
  }

  lemma LeavingMoves(s: State, t: Tid)
    requires PcOf(s, t).Leaving? && (PcOf(s, t).leave == Unlinked || PcOf(s, t).leave == OutOfChannel || PcOf(s, t).leave == Silenced)
    ensures Moves(s, t)
  {
    hide Next, Moves, PcOf, SubOf, ChanOf, MsgOf, Dup, Drop, ChanDup, ChanDrop, Released;
    var pc := PcOf(s, t);
    var k := ChanOf(s, pc.c).key;
    if pc.leave == Unlinked {
      var s' := WithChan(Goes(s, t, pc.(leave := OutOfChannel)), pc.c, ChanOf(s, pc.c).(lock := None));
      assert QuitStep(s, t, LeaveIt, s');
      ByQuitStep(s, t, LeaveIt, s');
    } else if pc.leave == OutOfChannel {
      var s' := WithSub(Goes(s, t, pc.(leave := Silenced)), pc.x, SubOf(s, pc.x).(silent := true));
      assert QuitStep(s, t, Silence, s');
      ByQuitStep(s, t, Silence, s');
    } else {
      var s' := WithSub(Goes(s, t, pc.(leave := Unlocked)), pc.x, SubOf(s, pc.x).(lock := None));
      assert QuitStep(s, t, UnlockIt, s');
      ByQuitStep(s, t, UnlockIt, s');
    }
  }

  /** The activity waits for a lock that another activity has. */
  ghost predicate WaitsForChan(s: State, t: Tid, c: Cid) {
    var pc := PcOf(s, t);
    && ChanOf(s, c).lock.Some?
    && ((pc.Joining? && pc.join == Looked && pc.c == c) || (pc.Leaving? && pc.leave == SubLocked && SubOf(s, pc.x).parent == Some(c)))
  }

  ghost predicate WaitsForSub(s: State, t: Tid, x: Sid) {
    PcOf(s, t).Leaving? && PcOf(s, t).leave == First && PcOf(s, t).x == x && SubOf(s, x).lock.Some?
  }

  lemma MovesOrWaits(s: State, t: Tid)
    requires Inv(s) && PcOf(s, t) != Idle
    ensures Moves(s, t) || (exists c: Cid :: WaitsForChan(s, t, c)) || (exists x: Sid :: WaitsForSub(s, t, x))
  {
    hide Moves;
    var pc := PcOf(s, t);
    Here(s, t, 0, 0, XOf(pc), COf(pc), 0);
    hide Inv;
    match pc
    case Publishing(pub, _, _, _) => if pub == Copied { PuttingMoves(s, t); } else { PublishingMoves(s, t); }
    case Working(job, c, _, rest, _) =>
      if Putting(s, pc).Some? { PuttingMoves(s, t); }
      else if job == Looping && rest == {} { LoopEnds(s, t); }
      else if Loops(pc) { LoopMoves(s, t); }
      else { WorkingMoves(s, t); }
    case Delivering(del, x, _, _) =>
      if Putting(s, pc).Some? { PuttingMoves(s, t); }
      else if del == LettingGo { LettingGoMoves(s, t); }
      else if del == Taken || del == Locked { DeliveringMoves(s, t); }
      else { ReturningMoves(s, t); }
    case Ending(x) => PartingMoves(s, t);
    case Parted(_, _) => PartingMoves(s, t);
    case Joining(join, _, _, c) =>
      if join == Start || join == Retry { LookingUpMoves(s, t); }
      else if join == Looked && ChanOf(s, c).lock.Some? { assert WaitsForChan(s, t, c); }
      else if join == Looked || join == Checking { JoiningMoves(s, t); }
      else { LinkingMoves(s, t); }
    case Leaving(at, x, _) =>
      if at == First && SubOf(s, x).lock.Some? { assert WaitsForSub(s, t, x); }
      else if at == SubLocked && ChanOf(s, SubOf(s, x).parent.value).lock.Some? { assert WaitsForChan(s, t, SubOf(s, x).parent.value); }
      else if at == First || at == SubLocked || at == InChannel { EnteringMoves(s, t); }
      else if at == Unlocked { UnlockedMoves(s, t); }
      else if at == Emptied { QuittingMoves(s, t); }
      else { LeavingMoves(s, t); }
  }

  /** Whoever has the lock of a channel can go on. */
  lemma ChannelHolderMoves(s: State, c: Cid)
    requires Inv(s) && ChanOf(s, c).lock.Some?
    ensures Moves(s, ChanOf(s, c).lock.value)
  {
    var u := ChanOf(s, c).lock.value;
    Here(s, u, 0, 0, 0, c, 0);
    MovesOrWaits(s, u);
  }

  /** In every reachable state in which some activity is under way, some activity can go on: there is no deadlock
      between the locks of subscriptions and channels. */
  lemma NoDeadlock(states: seq<State>, moves: seq<(Tid, Action)>, n: nat, t: Tid) returns (u: Tid)
    requires IsRun(states, moves) && n <= |moves| && PcOf(states[n], t) != Idle
    ensures Moves(states[n], u)
  {
    RunKeeps(states, moves, n);
    hide IsRun, Moves;
    var s := states[n];
    MovesOrWaits(s, t);
    if Moves(s, t) {
      u := t;
    } else if c: Cid :| WaitsForChan(s, t, c) {
      u := ChanOf(s, c).lock.value;
      ChannelHolderMoves(s, c);
    } else {
      var x: Sid :| WaitsForSub(s, t, x);
      var v := SubOf(s, x).lock.value;
      Here(s, v, 0, 0, x, 0, 0);
      MovesOrWaits(s, v);
      if Moves(s, v) {
        u := v;
      } else {
        var c: Cid :| WaitsForChan(s, v, c);
        u := ChanOf(s, c).lock.value;
        ChannelHolderMoves(s, c);
      }
    }
  }

  // ---------------------------------------------------------------------------------------------
  // What an activity that does nothing can start

  /** The step is possible, and the activity goes on as `pc`. */
  ghost predicate CanStart(s: State, t: Tid, a: Action, pc: Pc) {
    exists s': State :: Next(s, t, a, s') && PcOf(s', t) == pc
  }

  lemma Starts(s: State, t: Tid, a: Action, s': State)
    requires Next(s, t, a, s')
    ensures CanStart(s, t, a, PcOf(s', t))
  {
    hide Next;
  }

  /** Every task in the queue can be started, in whatever order: that of a channel, or a delivery. */
  lemma TaskCanStart(s: State, t: Tid, i: Id)
    requires PcOf(s, t) == Idle && i in s.queue
    ensures CanStart(s, t, Take(i), match s.queue[i] case ToChannel(c, m) => Working(JobTaken, c, m, {}, 0)
                                                    case ToSub(x, m) => Delivering(Taken, x, m, false))
  {
    hide CanStart;
    var item := s.queue[i];
    var s1 := WithMsg(Goes(s, t, Started(item)), item.m, Move(MsgOf(s, item.m), Task(i), Mine(t))).(queue := s.queue - {i});
    var s' := if item.ToChannel? then WithChan(s1, item.c, ChanMoved(ChanOf(s, item.c), Task(i), Mine(t)))
              else WithSub(s1, item.x, SubMoved(SubOf(s, item.x), Task(i), Mine(t)));
    assert TakeStep(s, t, Take(i), s');
    Starts(s, t, Take(i), s');
  }

  lemma PublishStarts(s: State, t: Tid, a: Action, s': State)
    requires PartOf(a) == InPublish && PublishStep(s, t, a, s')
    ensures CanStart(s, t, a, PcOf(s', t))
  {
    hide PublishStep;
    assert Next(s, t, a, s');
  }

  lemma JoinStarts(s: State, t: Tid, a: Action, s': State)
    requires PartOf(a) == InJoin && JoinStep(s, t, a, s')
    ensures CanStart(s, t, a, PcOf(s', t))
  {
    hide JoinStep;
    assert Next(s, t, a, s');
  }

  lemma LeaveStarts(s: State, t: Tid, a: Action, s': State)
    requires PartOf(a) == InLeave && LeaveStep(s, t, a, s')
    ensures CanStart(s, t, a, PcOf(s', t))
  {
    hide LeaveStep;
    assert Next(s, t, a, s');
  }

  /** Any new message can be published, for any names. */
  lemma CreateCanStart(s: State, t: Tid, m: Mid, keys: set<Key>)
    requires PcOf(s, t) == Idle && m !in s.msgs
    ensures CanStart(s, t, Create(m, keys), Publishing(Sending, m, 0, keys))
  {
    hide CanStart, Next;
    var s' := WithMsg(Goes(s, t, Publishing(Sending, m, 0, keys)), m, Count(1, {Mine(t)}, 0));
    assert PublishStep(s, t, Create(m, keys), s');
    PublishStarts(s, t, Create(m, keys), s');
  }

  /** Any new subscription can be made. */
  lemma SubscribeCanStart(s: State, t: Tid, x: Sid, k: Key, mock: bool)
    requires PcOf(s, t) == Idle && x !in s.subs
    ensures CanStart(s, t, Subscribe(x, k, mock), Joining(Start, x, k, 0))
  {
    hide CanStart, Next;
    var s' := WithSub(Goes(s, t, Joining(Start, x, k, 0)), x,
                     Subscription(Count(1, {Owner}, 0), None, None, false, mock, New(t), false, Alive, 0, 0));
    assert JoinStep(s, t, Subscribe(x, k, mock), s');
    JoinStarts(s, t, Subscribe(x, k, mock), s');
  }

  /** Any active subscription can be given up. */
  lemma UnsubscribeCanStart(s: State, t: Tid, x: Sid)
    requires PcOf(s, t) == Idle && x in s.subs && s.subs[x].phase == Active
    ensures CanStart(s, t, Unsubscribe(x), Leaving(First, x, 0))
  {
    hide CanStart, Next;
    var s' := WithSub(Goes(s, t, Leaving(First, x, 0)), x, SubOf(s, x).(phase := Leaves(t)));
    assert LeaveStep(s, t, Unsubscribe(x), s');
    LeaveStarts(s, t, Unsubscribe(x), s');
  }
}
