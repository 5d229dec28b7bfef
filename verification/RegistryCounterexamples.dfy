/**
  Three promises the code does not keep, each with a run that breaks it.  When each one does
  hold is stated exactly by `RegistryTheorems.OvershootIffLateInsert`,
  `RegistryAccounts.RunIsExactIff` and `RegistryHidden.DeletedAnswersUnknownIff`.
*/
module RegistryCounterexamples {
  import opened Common
  import opened AsyncLock
  import opened HttpErrors
  import opened Registry
  import opened RegistryInv
  import opened RegistrySteps
  import opened RegistryTheorems

  lemma OneMore(s: State, e: Event)
    requires Reachable(s) && Shape(s) && Enabled(s, e)
    ensures Reachable(Apply(s, e)) && Shape(Apply(s, e))
  {
    KeepsShape(s, e);
    assert Legal(Apply(s, e), []);
    assert [e][1..] == [];
    assert Legal(s, [e]) && Exec(s, [e]) == Apply(s, e);
    RunIsReachable(s, [e]);
  }

  lemma StartIsReachable(cfg: Config)
    ensures Reachable(Init(cfg, 0.0)) && Shape(Init(cfg, 0.0))
  {
    assert Legal(Init(cfg, 0.0), []) && Exec(Init(cfg, 0.0), []) == Init(cfg, 0.0);
  }

  lemma DeleteEnters(s: State, t: Task) returns (s': State)
    requires Reachable(s) && Shape(s) && t < |s.tasks| && s.tasks[t].Got? && s.tasks[t].kind == Delete
    requires s.recs[s.tasks[t].sid].lock == UNLOCKED
    ensures Reachable(s') && Shape(s') && |s'.recs| == |s.recs|
    ensures s'.tasks == s.tasks[t := Holding(Delete, s.tasks[t].sid)]
    ensures s'.recs[s.tasks[t].sid].lock == Lock(By(Request(t, true)), [])
    ensures s' == s.(recs := s'.recs, tasks := s'.tasks)
  {
    OneMore(s, EAcquireRuns(t));
    s' := Enter(s, t, Delete, s.tasks[t].sid);
  }

  /** A delete that is past `get` and finds the lock free runs to its end. */
  lemma DeleteRuns(s: State, t: Task) returns (s': State)
    requires Reachable(s) && Shape(s) && t < |s.tasks| && s.tasks[t].Got? && s.tasks[t].kind == Delete
    requires s.recs[s.tasks[t].sid].lock == UNLOCKED
    ensures Reachable(s') && Shape(s') && s'.cfg == s.cfg && |s'.recs| == |s.recs|
    ensures s'.tasks == s.tasks[t := Ended] && s'.recs[s.tasks[t].sid].lock == UNLOCKED
    ensures s'.live == s.live - {s.tasks[t].sid} && s'.totals == s.totals.(deleted := s.totals.deleted + 1)
    ensures s'.ledger.noopPops == s.ledger.noopPops + if s.tasks[t].sid in s.live then 0 else 1
  {
    var sid := s.tasks[t].sid;
    var s1 := DeleteEnters(s, t);
    OneMore(s1, EBodyStarts(t));
    var s2 := BodyStarts(s1, t);
    assert s2.recs[sid].lock == s1.recs[sid].lock;
    s' := DeleteEnds(s2, t);
    assert s.tasks[t := Holding(Delete, sid)][t := Body(Delete, sid)][t := Ended] == s.tasks[t := Ended];
  }

  lemma DeleteEnds(s: State, t: Task) returns (s': State)
    requires Reachable(s) && Shape(s) && t < |s.tasks| && s.tasks[t].Body? && s.tasks[t].kind == Delete
    requires s.recs[s.tasks[t].sid].lock == Lock(By(Request(t, true)), [])
    ensures Reachable(s') && Shape(s') && s'.cfg == s.cfg && |s'.recs| == |s.recs|
    ensures s'.tasks == s.tasks[t := Ended] && s'.recs[s.tasks[t].sid].lock == UNLOCKED
    ensures s'.live == s.live - {s.tasks[t].sid} && s'.totals == s.totals.(deleted := s.totals.deleted + 1)
    ensures s'.ledger.noopPops == s.ledger.noopPops + if s.tasks[t].sid in s.live then 0 else 1
  {
    OneMore(s, EBodyEnds(t, Success));
    s' := BodyEnds(s, t, Success);
  }

  const SMALL := Config(1, 8, 300, 30, 900)

  /** Two creates start while the registry is empty. */
  lemma TwoLaunching() returns (s: State)
    ensures Reachable(s) && Shape(s)
    ensures s == Init(SMALL, 0.0).(tasks := [Launching(None, None, 0), Launching(None, None, 0)])
  {
    var s0 := Init(SMALL, 0.0);
    StartIsReachable(SMALL);
    OneMore(s0, ECreateCall(None));
    var s1 := CreateCall(s0, None);
    OneMore(s1, ECreateCall(None));
    s := CreateCall(s1, None);
  }

  /** The first one registers session 0. */
  lemma FirstSession() returns (s: State)
    ensures Reachable(s) && Shape(s) && s.cfg == SMALL && s.live == {0} && s.nextEng == 1 && s.now == 0.0
    ensures s.recs == [Rec(0, 300, 0.0, false, UNLOCKED)] && s.reaper == Asleep && s.tombstones == []
    ensures s.tasks == [Created(0, None, 0), Launching(None, None, 0)] && s.totals.reaped == 0
    ensures s.totals.created == 1 && s.totals.deleted == 0 && s.ledger.noopPops == 0
  {
    var s0 := TwoLaunching();
    OneMore(s0, ELaunchDone(0));
    s := LaunchDone(s0, 0);
  }

  /** A delete looks it up. */
  lemma OneRegistered() returns (s: State)
    ensures Reachable(s) && Shape(s) && s.cfg == SMALL && s.live == {0} && s.nextEng == 1 && s.now == 0.0
    ensures s.recs == [Rec(0, 300, 0.0, false, UNLOCKED)] && s.reaper == Asleep
    ensures s.tasks == [Created(0, None, 0), Launching(None, None, 0), Got(Delete, 0)]
    ensures s.totals.created == 1 && s.totals.deleted == 0 && s.ledger.noopPops == 0
  {
    var s0 := FirstSession();
    assert Get(s0, 0) == Found;
    OneMore(s0, ECall(Delete, 0));
    s := Call(s0, Delete, 0);
    assert s.tasks == s0.tasks + [Got(Delete, 0)];
  }

  /** Five seconds later the second create finds the registry full and evicts session 0. */
  lemma EvictingWithADeletePending() returns (s: State)
    ensures Reachable(s) && Shape(s) && s.cfg == SMALL && s.live == {0} && |s.recs| == 1
    ensures |s.tasks| == 3 && s.tasks[1].EvictSecond? && s.tasks[1].victim == 0 && s.tasks[2] == Got(Delete, 0)
    ensures s.recs[0].lock == UNLOCKED
  {
    var s0 := OneRegistered();
    OneMore(s0, Tick(5.0));
    var s1 := s0.(now := s0.now + 5.0);
    OneMore(s1, ELaunchDone(1));
    var s2 := s1.(nextEng := 2);
    assert |s2.live| == 1 && Evictable(s2, 0);
    assert Oldest(s2) == Some(0);
    s := LaunchDone(s1, 1);
  }

  /** The delete gets the lock and goes through while the eviction is closing the browser. */
  lemma DeletedDuringEviction() returns (s: State)
    ensures Reachable(s) && Shape(s) && s.cfg == SMALL && s.live == {} && |s.recs| == 1
    ensures |s.tasks| == 3 && s.tasks[1].EvictSecond? && s.tasks[1].victim == 0
  {
    var s0 := EvictingWithADeletePending();
    s := DeleteRuns(s0, 2);
  }

  /** A third create takes the slot the delete has left. */
  lemma SlotTakenDuringEviction() returns (s: State)
    ensures Reachable(s) && Shape(s) && s.cfg == SMALL && s.live == {1} && |s.recs| == 2
    ensures |s.tasks| == 4 && s.tasks[1].EvictSecond? && s.tasks[1].victim == 0
  {
    var s0 := DeletedDuringEviction();
    OneMore(s0, ECreateCall(None));
    var s1 := CreateCall(s0, None);
    assert s1.tasks[3] == Launching(None, None, 0);
    OneMore(s1, ELaunchDone(3));
    s := LaunchDone(s1, 3);
  }

  /**
    The comment on `_evict_one` says that capacity is checked again before the insert.  After
    the second eviction it is not, and two sessions end up in a registry for one.
  */
  lemma CapCanBeExceeded() returns (s: State)
    ensures Reachable(s) && |s.live| > s.cfg.maxSessions
  {
    var s0 := SlotTakenDuringEviction();
    OneMore(s0, EEvictSecondDone(1));
    s := EvictSecondDone(s0, 1);
    assert s.live == {1, 2};
  }

  /** Two deletes both find session 0 before either of them hides it, and both count it. */
  lemma DeletionCanBeCountedTwice() returns (s: State)
    ensures Reachable(s) && s.totals.created == 1 && s.totals.deleted == 2 && s.ledger.noopPops == 1
  {
    var s0 := OneRegistered();
    assert Get(s0, 0) == Found;
    OneMore(s0, ECall(Delete, 0));
    var s1 := Call(s0, Delete, 0);
    var s2 := DeleteRuns(s1, 2);
    s := DeleteRuns(s2, 3);
  }

  // ---- a deleted session that expires ------------------------------------------------------

  /** Session 0 beside two creates, one of them still launching, and the requests given. */
  ghost predicate Looks(s: State, now: real, closing: bool, lock: Lock, requests: seq<Pc>, reaper: ReaperPc) {
    && Reachable(s) && Shape(s) && s.cfg == SMALL && s.now == now
    && s.recs == [Rec(0, 300, 0.0, closing, lock)]
    && s.tasks == [Created(0, None, 0), Launching(None, None, 0)] + requests && s.reaper == reaper
    && s.live == {0} && s.tombstones == [] && s.totals.deleted == 0 && s.totals.reaped == 0
  }

  const ACTOR := Request(2, true)
  const DELETER := Request(3, true)
  const SIGHTED := Sighting(0, 301.0, 0.0)

  lemma ActionCalls() returns (s: State)
    ensures Looks(s, 0.0, false, UNLOCKED, [Got(Action, 0)], Asleep)
  {
    var s0 := FirstSession();
    assert Get(s0, 0) == Found;
    OneMore(s0, ECall(Action, 0));
    s := Call(s0, Action, 0);
    assert s.tasks == s0.tasks + [Got(Action, 0)];
  }

  lemma ActionEnters() returns (s: State)
    ensures Looks(s, 0.0, false, Lock(By(ACTOR), []), [Holding(Action, 0)], Asleep)
  {
    var s0 := ActionCalls();
    OneMore(s0, EAcquireRuns(2));
    s := Enter(s0, 2, Action, 0);
    assert s.tasks == s0.tasks[2 := Holding(Action, 0)];
  }

  lemma ActionRuns() returns (s: State)
    ensures Looks(s, 0.0, false, Lock(By(ACTOR), []), [Body(Action, 0)], Asleep)
  {
    var s0 := ActionEnters();
    OneMore(s0, EBodyStarts(2));
    s := BodyStarts(s0, 2);
    assert s.tasks == s0.tasks[2 := Body(Action, 0)];
  }

  lemma DeleteCalls() returns (s: State)
    ensures Looks(s, 0.0, false, Lock(By(ACTOR), []), [Body(Action, 0), Got(Delete, 0)], Asleep)
  {
    var s0 := ActionRuns();
    assert Get(s0, 0) == Found;
    OneMore(s0, ECall(Delete, 0));
    s := Call(s0, Delete, 0);
    assert s.tasks == s0.tasks + [Got(Delete, 0)];
  }

  lemma DeleteQueues() returns (s: State)
    ensures Looks(s, 0.0, false, Lock(By(ACTOR), [Waiter(DELETER, Pending)]),
                  [Body(Action, 0), Waiting(Delete, 0)], Asleep)
  {
    var s0 := DeleteCalls();
    OneMore(s0, EAcquireRuns(3));
    s := Enter(s0, 3, Delete, 0);
    assert s.tasks == s0.tasks[3 := Waiting(Delete, 0)];
    assert s.recs[0].lock.waiters == [Waiter(DELETER, Pending)];
  }

  /** The action runs into its timeout, which leaves the idle clock alone, and wakes the delete. */
  lemma ActionTimesOut() returns (s: State)
    ensures Looks(s, 301.0, false, Lock(Free, [Waiter(DELETER, Woken)]), [Ended, Waiting(Delete, 0)], Asleep)
  {
    var s0 := DeleteQueues();
    OneMore(s0, Tick(301.0));
    var s1 := s0.(now := 301.0);
    OneMore(s1, EBodyEnds(2, Raised(ActionTimeout)));
    s := BodyEnds(s1, 2, Raised(ActionTimeout));
    assert s.recs[0].lock == Release(s0.recs[0].lock);
    assert s.recs[0].lock.waiters == [Waiter(DELETER, Woken)];
    assert s.tasks == s0.tasks[2 := Ended];
  }

  /** A pass begins before the delete's task runs: the lock is free, so the session looks idle. */
  lemma ReaperQueues() returns (s: State)
    ensures Looks(s, 301.0, true, Lock(Free, [Waiter(DELETER, Woken), Waiter(Reaper, Pending)]),
                  [Ended, Waiting(Delete, 0)], LockWait(SIGHTED, 301.0, []))
  {
    var s0 := ActionTimesOut();
    assert Snapshot(s0) == [0] by {
      assert OrderedUpTo({0}, 0) == [];
    }
    OneMore(s0, EPassStarts(true));
    s := Scan(s0, 301.0, [0]);
    assert s == Claim(s0, 301.0, 0, []);
    assert s0.recs[0].lock.waiters[0].status == Woken && !CanTake(s0.recs[0].lock);
    assert s.recs[0].lock == Acquire(s0.recs[0].lock, Reaper);
    assert s.recs[0].lock.waiters == [Waiter(DELETER, Woken), Waiter(Reaper, Pending)];
  }

  lemma DeleteGetsTheLock() returns (s: State)
    ensures Looks(s, 301.0, true, Lock(By(DELETER), [Waiter(Reaper, Pending)]),
                  [Ended, Holding(Delete, 0)], LockWait(SIGHTED, 301.0, []))
  {
    var s0 := ReaperQueues();
    var l := s0.recs[0].lock;
    assert l.waiters[0] in l.waiters;
    assert DELETER in Queue(l) && Place(l, DELETER) == 0;
    OneMore(s0, EWaiterRuns(3));
    s := WaiterRuns(s0, 3);
    assert s.recs[0].lock == Resume(l, DELETER);
    assert s.recs[0].lock.waiters == [Waiter(Reaper, Pending)];
    assert s.tasks == s0.tasks[3 := Holding(Delete, 0)];
  }

  lemma DeleteCloses() returns (s: State)
    ensures Looks(s, 301.0, true, Lock(By(DELETER), [Waiter(Reaper, Pending)]),
                  [Ended, Body(Delete, 0)], LockWait(SIGHTED, 301.0, []))
  {
    var s0 := DeleteGetsTheLock();
    OneMore(s0, EBodyStarts(3));
    s := BodyStarts(s0, 3);
    assert s.tasks == s0.tasks[3 := Body(Delete, 0)];
  }

  lemma DeleteFinishes() returns (s: State)
    ensures Reachable(s) && Shape(s) && s.cfg == SMALL && s.live == {} && s.totals.deleted == 1 && s.totals.reaped == 0
    ensures s.recs == [Rec(0, 300, 0.0, true, Lock(Free, [Waiter(Reaper, Woken)]))] && s.tombstones == []
    ensures s.reaper == LockWait(SIGHTED, 301.0, [])
  {
    var s0 := DeleteCloses();
    OneMore(s0, EBodyEnds(3, Success));
    s := BodyEnds(s0, 3, Success);
    assert s.recs[0].lock == Release(s0.recs[0].lock);
    assert s.recs[0].lock.waiters == [Waiter(Reaper, Woken)];
  }

  lemma ReaperGetsTheLock() returns (s: State)
    ensures Reachable(s) && Shape(s) && s.cfg == SMALL && s.live == {} && s.totals.deleted == 1 && s.totals.reaped == 0
    ensures |s.recs| == 1 && s.recs[0].idleTimeout == 300 && s.tombstones == []
    ensures s.reaper == Teardown(SIGHTED, 301.0, [])
  {
    var s0 := DeleteFinishes();
    var l := s0.recs[0].lock;
    assert l.waiters[0] in l.waiters;
    assert Reaper in Queue(l) && Place(l, Reaper) == 0;
    OneMore(s0, EReaperLocks);
    s := ReaperLocks(s0);
  }

  /**
    The comment on the eviction says that a deleted session is unknown afterwards.  Here one
    is deleted and counted as deleted, then buried by a pass that had been waiting for its lock,
    counted once more as reaped, and answered as expired.
  */
  lemma DeletedIdCanAnswerExpired() returns (s: State)
    ensures Reachable(s) && s.totals.deleted == 1 && s.totals.reaped == 1 && Get(s, 0) == Expired(300)
  {
    var s0 := ReaperGetsTheLock();
    OneMore(s0, EReapDone);
    s := ReapDone(s0);
    assert Without([], 0) == [];
    assert s.tombstones == [(0, 300)];
  }
}
