/** What may hold a reference: messages, subscriptions and channels each have their own kinds of holders,
    and no step gives a reference to anything else. */
module PubSubHolders {
  import opened PubSub

  predicate MsgToken(tok: Token) {
    tok.Held? || tok.Task? || tok.Sent?
  }

  predicate SubToken(tok: Token) {
    (tok.Held? && !tok.second) || tok.Task? || tok.Owner?
  }

  predicate ChanToken(tok: Token) {
    (tok.Held? && !tok.second) || tok.Task? || tok.Table? || tok.Member?
  }

  ghost predicate MsgBound(s: State, m: Mid) {
    forall tok | tok in MsgOf(s, m).holders :: MsgToken(tok)
  }

  ghost predicate SubBound(s: State, x: Sid) {
    forall tok | tok in SubOf(s, x).count.holders :: SubToken(tok)
  }

  ghost predicate ChanBound(s: State, c: Cid) {
    forall tok | tok in ChanOf(s, c).count.holders :: ChanToken(tok)
  }

  ghost predicate Bound(s: State, m: Mid, x: Sid, c: Cid) {
    MsgBound(s, m) && SubBound(s, x) && ChanBound(s, c)
  }

  lemma PutKeepsBound(s: State, t: Tid, a: Action, s': State, m: Mid, x: Sid, c: Cid)
    requires PutStep(s, t, a, s') && Bound(s, m, x, c)
    ensures Bound(s', m, x, c)
  {
  }

  lemma TakeKeepsBound(s: State, t: Tid, a: Action, s': State, m: Mid, x: Sid, c: Cid)
    requires TakeStep(s, t, a, s') && Bound(s, m, x, c)
    ensures Bound(s', m, x, c)
  {
  }

  lemma PublishKeepsBound(s: State, t: Tid, a: Action, s': State, m: Mid, x: Sid, c: Cid)
    requires PublishStep(s, t, a, s') && Bound(s, m, x, c)
    ensures Bound(s', m, x, c)
  {
  }

  lemma WorkKeepsBound(s: State, t: Tid, a: Action, s': State, m: Mid, x: Sid, c: Cid)
    requires WorkStep(s, t, a, s') && Bound(s, m, x, c)
    ensures Bound(s', m, x, c)
  {
  }

  lemma LoopKeepsBound(s: State, t: Tid, a: Action, s': State, m: Mid, x: Sid, c: Cid)
    requires LoopStep(s, t, a, s') && Bound(s, m, x, c)
    ensures Bound(s', m, x, c)
  {
  }

  lemma CallKeepsBound(s: State, t: Tid, a: Action, s': State, m: Mid, x: Sid, c: Cid)
    requires CallStep(s, t, a, s') && Bound(s, m, x, c)
    ensures Bound(s', m, x, c)
  {
  }

  lemma ReleaseKeepsBound(s: State, t: Tid, a: Action, s': State, m: Mid, x: Sid, c: Cid)
    requires ReleaseStep(s, t, a, s') && Bound(s, m, x, c)
    ensures Bound(s', m, x, c)
  {
  }

  lemma JoinKeepsBound(s: State, t: Tid, a: Action, s': State, m: Mid, x: Sid, c: Cid)
    requires JoinStep(s, t, a, s') && Bound(s, m, x, c)
    ensures Bound(s', m, x, c)
  {
  }

  lemma LeaveKeepsBound(s: State, t: Tid, a: Action, s': State, m: Mid, x: Sid, c: Cid)
    requires LeaveStep(s, t, a, s') && Bound(s, m, x, c)
    ensures Bound(s', m, x, c)
  {
  }

  lemma QuitKeepsBound(s: State, t: Tid, a: Action, s': State, m: Mid, x: Sid, c: Cid)
    requires QuitStep(s, t, a, s') && Bound(s, m, x, c)
    ensures Bound(s', m, x, c)
  {
  }

  lemma StepKeepsBound(s: State, t: Tid, a: Action, s': State, m: Mid, x: Sid, c: Cid)
    requires Next(s, t, a, s') && Bound(s, m, x, c)
    ensures Bound(s', m, x, c)
  {
    match PartOf(a)
    case InPut => PutKeepsBound(s, t, a, s', m, x, c);
    case InTake => TakeKeepsBound(s, t, a, s', m, x, c);
    case InPublish => PublishKeepsBound(s, t, a, s', m, x, c);
    case InWork => WorkKeepsBound(s, t, a, s', m, x, c);
    case InLoop => LoopKeepsBound(s, t, a, s', m, x, c);
    case InCall => CallKeepsBound(s, t, a, s', m, x, c);
    case InRelease => ReleaseKeepsBound(s, t, a, s', m, x, c);
    case InJoin => JoinKeepsBound(s, t, a, s', m, x, c);
    case InLeave => LeaveKeepsBound(s, t, a, s', m, x, c);
    case InQuit => QuitKeepsBound(s, t, a, s', m, x, c);
  }
}
