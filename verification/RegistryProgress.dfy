/**
  Nobody waits in vain: from every reachable state some run lets a wait without a deadline
  end, and a session the reaper has claimed can always be reaped.
*/
module RegistryProgress {
  import opened Common
  import opened AsyncLock
  import opened HttpErrors
  import opened Registry
  import opened RegistryInv
  import opened RegistrySteps
  import opened RegistryTheorems
  import opened RegistryPolicy

  /** What the tasks around one session lock leave alone. */
  predicate Calm(s: State, s': State) {
    s'.reaper == s.reaper && s'.reapLog == s.reapLog && s'.cfg == s.cfg && |s'.recs| == |s.recs|
  }

  /** The queue has the same tasks in the same order, whatever has become of their futures. */
  predicate SameOrder(a: seq<Waiter>, b: seq<Waiter>) {
    |a| == |b| && forall i :: 0 <= i < |a| ==> a[i].who == b[i].who
  }

  lemma OneStep(s: State, e: Event)
    requires Inv(s) && Enabled(s, e)
    ensures Legal(s, [e]) && Exec(s, [e]) == Apply(s, e) && Inv(Apply(s, e))
  {
    KeepsInv(s, e);
    assert [e] + [] == [e];
    LegalCons(s, e, []);
  }

  lemma TwoSteps(s: State, e: Event, f: Event)
    requires Shape(s) && Enabled(s, e) && Shape(Apply(s, e)) && Enabled(Apply(s, e), f)
    ensures Legal(s, [e, f]) && Exec(s, [e, f]) == Apply(Apply(s, e), f)
  {
    assert [f] + [] == [f] && [e] + [f] == [e, f];
    LegalCons(Apply(s, e), f, []);
    LegalCons(s, e, [f]);
  }

  /** A body that has started ends, and gives the lock back. */
  lemma BodyLeaves(s: State, sid: Sid, t: Task)
    requires Inv(s) && sid < |s.recs| && t < |s.tasks| && s.tasks[t].Body? && s.tasks[t].sid == sid
    ensures Enabled(s, EBodyEnds(t, Success))
    ensures var s' := BodyEnds(s, t, Success);
      Calm(s, s') && s'.recs[sid].lock == Release(s.recs[sid].lock)
  {
  }

  lemma ReleaseKeepsOrder(l: Lock)
    ensures Release(l).holder == Free && SameOrder(l.waiters, Release(l).waiters)
  {
  }

  lemma HolderLeaves(s: State, sid: Sid, t: Task, timed: bool) returns (es: seq<Event>)
    requires Inv(s) && sid < |s.recs| && s.recs[sid].lock.holder == By(Request(t, timed))
    ensures Legal(s, es)
    ensures var s' := Exec(s, es);
      && Inv(s') && Calm(s, s') && s'.recs[sid].lock.holder == Free
      && SameOrder(s.recs[sid].lock.waiters, s'.recs[sid].lock.waiters)
  {
    assert LockOk(s, sid);
    assert PhaseOf(s, Request(t, timed), sid) == Holds;
    ReleaseKeepsOrder(s.recs[sid].lock);
    if s.tasks[t].Body? {
      BodyLeaves(s, sid, t);
      OneStep(s, EBodyEnds(t, Success));
      es := [EBodyEnds(t, Success)];
    } else {
      var s1 := StartsBody(s, sid, t);
      BodyLeaves(s1, sid, t);
      KeepsInv(s1, EBodyEnds(t, Success));
      TwoSteps(s, EBodyStarts(t), EBodyEnds(t, Success));
      es := [EBodyStarts(t), EBodyEnds(t, Success)];
    }
  }

  lemma StartsBody(s: State, sid: Sid, t: Task) returns (s': State)
    requires Inv(s) && sid < |s.recs| && t < |s.tasks| && s.tasks[t].Holding? && s.tasks[t].sid == sid
    ensures Enabled(s, EBodyStarts(t)) && Apply(s, EBodyStarts(t)) == s' && Inv(s') && Calm(s, s')
    ensures s'.recs[sid].lock == s.recs[sid].lock
    ensures t < |s'.tasks| && s'.tasks[t].Body? && s'.tasks[t].sid == sid
  {
    OneStep(s, EBodyStarts(t));
    s' := BodyStarts(s, t);
  }

  /** The head of a free lock's queue gives up, or has its turn. */
  lemma HeadLeaves(s: State, sid: Sid) returns (es: seq<Event>)
    requires Inv(s) && sid < |s.recs| && s.recs[sid].lock.holder == Free
    requires |s.recs[sid].lock.waiters| > 0 && s.recs[sid].lock.waiters[0].who.Request?
    ensures Legal(s, es)
    ensures var s' := Exec(s, es);
      && Inv(s') && Calm(s, s') && s'.recs[sid].lock.holder == Free
      && SameOrder(s.recs[sid].lock.waiters[1..], s'.recs[sid].lock.waiters)
  {
    var head := s.recs[sid].lock.waiters[0];
    var t := head.who.task;
    HeadWaits(s, sid);
    if head.status == Cancelled || head.who.timed {
      OneStep(s, EGivesUp(t));
      HeadGivesUp(s, sid, t);
      es := [EGivesUp(t)];
    } else {
      es := ProbeComesAndGoes(s, sid, t);
    }
  }

  lemma ProbeComesAndGoes(s: State, sid: Sid, t: Task) returns (es: seq<Event>)
    requires Inv(s) && sid < |s.recs| && Enabled(s, EWaiterRuns(t)) && s.tasks[t].sid == sid
    requires s.tasks[t].kind == Probe && Place(s.recs[sid].lock, Asker(t, Probe)) == 0
    ensures Legal(s, es)
    ensures var s' := Exec(s, es);
      && Inv(s') && Calm(s, s') && s'.recs[sid].lock.holder == Free
      && SameOrder(s.recs[sid].lock.waiters[1..], s'.recs[sid].lock.waiters)
  {
    KeepsInv(s, EWaiterRuns(t));
    HeadHasItsTurn(s, sid, t);
    var s1 := WaiterRuns(s, t);
    BodyLeaves(s1, sid, t);
    ReleaseKeepsOrder(s1.recs[sid].lock);
    KeepsInv(s1, EBodyEnds(t, Success));
    TwoSteps(s, EWaiterRuns(t), EBodyEnds(t, Success));
    es := [EWaiterRuns(t), EBodyEnds(t, Success)];
  }

  lemma HeadGivesUp(s: State, sid: Sid, t: Task)
    requires Shape(s) && sid < |s.recs| && Enabled(s, EGivesUp(t)) && s.tasks[t].sid == sid
    requires s.recs[sid].lock.holder == Free && Place(s.recs[sid].lock, Asker(t, s.tasks[t].kind)) == 0
    ensures var s' := GivesUp(s, t);
      && Calm(s, s') && s'.recs[sid].lock.holder == Free
      && SameOrder(s.recs[sid].lock.waiters[1..], s'.recs[sid].lock.waiters)
  {
  }

  lemma HeadHasItsTurn(s: State, sid: Sid, t: Task)
    requires Shape(s) && sid < |s.recs| && Enabled(s, EWaiterRuns(t)) && s.tasks[t].sid == sid
    requires s.tasks[t].kind == Probe && Place(s.recs[sid].lock, Asker(t, Probe)) == 0
    ensures var s' := WaiterRuns(s, t);
      && Calm(s, s') && s'.recs[sid].lock.waiters == s.recs[sid].lock.waiters[1..]
      && t < |s'.tasks| && s'.tasks[t] == Body(Probe, sid)
  {
  }

  lemma HeadWaits(s: State, sid: Sid)
    requires Inv(s) && sid < |s.recs| && s.recs[sid].lock.holder == Free
    requires |s.recs[sid].lock.waiters| > 0 && s.recs[sid].lock.waiters[0].who.Request?
    ensures var l := s.recs[sid].lock; var head := l.waiters[0];
      && head.status != Pending && Place(l, head.who) == 0 && head.who in Queue(l)
      && head.who.task < |s.tasks| && s.tasks[head.who.task].Waiting? && s.tasks[head.who.task].sid == sid
      && head.who == Asker(head.who.task, s.tasks[head.who.task].kind)
      && QueuedAs(s, head.who.task, head.status)
  {
    var l := s.recs[sid].lock;
    assert LockOk(s, sid);
    assert l.waiters[0] in l.waiters;
    assert l.waiters[0].who in Queue(l);
    assert PhaseOf(s, l.waiters[0].who, sid) == Queueing;
  }

  /** Those ahead of a wait without a deadline are requests, and its future is never cancelled. */
  lemma AheadAreRequests(s: State, sid: Sid, k: nat)
    requires Inv(s) && sid < |s.recs| && k < |s.recs[sid].lock.waiters|
    requires !s.recs[sid].lock.waiters[k].who.HasDeadline()
    ensures k > 0 ==> s.recs[sid].lock.waiters[0].who.Request?
    ensures s.recs[sid].lock.waiters[k].status != Cancelled
    ensures s.recs[sid].lock.holder == Free || (s.recs[sid].lock.holder.By? && s.recs[sid].lock.holder.who.Request?)
    ensures s.recs[sid].lock.holder == Free && k == 0 ==> s.recs[sid].lock.waiters[0].status == Woken
  {
    assert LockOk(s, sid);
  }

  /** The wait at place k of the queue can end: some run gives it its turn and disturbs nothing else. */
  lemma {:induction false} TurnComes(s: State, sid: Sid, k: nat) returns (es: seq<Event>)
    requires Inv(s) && sid < |s.recs| && k < |s.recs[sid].lock.waiters|
    requires !s.recs[sid].lock.waiters[k].who.HasDeadline()
    ensures Legal(s, es)
    ensures var s' := Exec(s, es);
      && Inv(s') && Calm(s, s') && s'.recs[sid].lock.holder == Free
      && |s'.recs[sid].lock.waiters| > 0
      && s'.recs[sid].lock.waiters[0] == Waiter(s.recs[sid].lock.waiters[k].who, Woken)
    decreases k, if s.recs[sid].lock.holder == Free then 0 else 1
  {
    AheadAreRequests(s, sid, k);
    var holder := s.recs[sid].lock.holder;
    if holder == Free && k == 0 {
      es := [];
    } else if holder == Free {
      var first := HeadLeaves(s, sid);
      assert s.recs[sid].lock.waiters[1..][k - 1] == s.recs[sid].lock.waiters[k];
      var rest := TurnComes(Exec(s, first), sid, k - 1);
      LegalSplit(s, first, rest);
      es := first + rest;
    } else {
      var first := HolderLeaves(s, sid, holder.who.task, holder.who.timed);
      var rest := TurnComes(Exec(s, first), sid, k);
      LegalSplit(s, first, rest);
      es := first + rest;
    }
  }

  /** Whoever waits without a deadline can always be given its turn: a probe, or the reaper. */
  lemma UntimedWaitCanEnd(s: State, who: Who, sid: Sid) returns (es: seq<Event>)
    requires Reachable(s) && Shape(s) && sid < |s.recs| && PhaseOf(s, who, sid) == Queueing && !who.HasDeadline()
    ensures Legal(s, es)
    ensures Shape(Exec(s, es)) && CanMove(Exec(s, es), who, sid)
  {
    ReachableInv(s);
    assert LockOk(s, sid);
    assert who in Queue(s.recs[sid].lock);
    es := TurnComes(s, sid, Place(s.recs[sid].lock, who));
    var s' := Exec(s, es);
    assert LockOk(s', sid);
    assert who in Queue(s'.recs[sid].lock) by {
      assert s'.recs[sid].lock.waiters[0] in s'.recs[sid].lock.waiters;
    }
    HeadCanMove(s', sid);
  }

  /** A session the reaper has claimed can be reaped next, whatever is going on around it. */
  lemma ReapCanFinish(s: State, sid: Sid) returns (es: seq<Event>)
    requires Inv(s) && ClaimedBy(s, Reaper, sid)
    ensures Legal(s, es) && Exec(s, es).cfg == s.cfg
    ensures Exec(s, es).reapLog == s.reapLog + [s.reaper.claim]
  {
    if s.reaper.Teardown? {
      OneStep(s, EReapDone);
      ReapIsLogged(s);
      es := [EReapDone];
    } else {
      es := WaitingReapFinishes(s);
    }
  }

  lemma ReapIsLogged(s: State)
    requires Inv(s) && s.reaper.Teardown?
    ensures ReapDone(s).reapLog == s.reapLog + [s.reaper.claim] && ReapDone(s).cfg == s.cfg
  {
    var _ := ScanCases(Bury(s), s.reaper.passNow, s.reaper.rest);
  }

  lemma WaitingReapFinishes(s: State) returns (es: seq<Event>)
    requires Inv(s) && s.reaper.LockWait?
    ensures Legal(s, es) && Exec(s, es).cfg == s.cfg
    ensures Exec(s, es).reapLog == s.reapLog + [s.reaper.claim]
  {
    var sid := s.reaper.claim.sid;
    assert LockOk(s, sid) && PhaseOf(s, Reaper, sid) == Queueing;
    assert Reaper in Queue(s.recs[sid].lock);
    var first := TurnComes(s, sid, Place(s.recs[sid].lock, Reaper));
    var s1 := Exec(s, first);
    HeadReaps(s1, sid);
    LegalSplit(s, first, [EReaperLocks, EReapDone]);
    es := first + [EReaperLocks, EReapDone];
  }

  lemma HeadReaps(s: State, sid: Sid)
    requires Inv(s) && s.reaper.LockWait? && s.reaper.claim.sid == sid
    requires |s.recs[sid].lock.waiters| > 0 && s.recs[sid].lock.waiters[0] == Waiter(Reaper, Woken)
    ensures Legal(s, [EReaperLocks, EReapDone])
    ensures var s' := Exec(s, [EReaperLocks, EReapDone]);
      s'.cfg == s.cfg && s'.reapLog == s.reapLog + [s.reaper.claim]
  {
    ReaperIsHead(s, sid);
    KeepsInv(s, EReaperLocks);
    ReapIsLogged(ReaperLocks(s));
    TwoSteps(s, EReaperLocks, EReapDone);
  }

  lemma ReaperIsHead(s: State, sid: Sid)
    requires Inv(s) && s.reaper.LockWait? && s.reaper.claim.sid == sid
    requires |s.recs[sid].lock.waiters| > 0 && s.recs[sid].lock.waiters[0] == Waiter(Reaper, Woken)
    ensures Enabled(s, EReaperLocks)
  {
    assert s.recs[sid].lock.waiters[0] in s.recs[sid].lock.waiters;
    assert Reaper in Queue(s.recs[sid].lock);
  }
}
