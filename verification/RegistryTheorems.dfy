/** What holds at every await point of every run of the session registry. */
module RegistryTheorems {
  import opened Common
  import opened AsyncLock
  import opened HttpErrors
  import opened Registry
  import opened RegistryInv
  import opened RegistrySteps

  ghost predicate Reachable(s: State) {
    exists cfg, now, es :: Legal(Init(cfg, now), es) && Exec(Init(cfg, now), es) == s
  }

  lemma ReachableInv(s: State)
    requires Reachable(s)
    ensures Inv(s)
  {
    var cfg, now, es :| Legal(Init(cfg, now), es) && Exec(Init(cfg, now), es) == s;
    InitInv(cfg, now);
    RunKeepsInv(Init(cfg, now), es);
  }

  // ---- capacity ------------------------------------------------------------------------

  /** Only the two inserts of `create` add to the registry. */
  lemma OnlyCreateGrows(s: State, e: Event)
    requires Shape(s) && Enabled(s, e) && !e.ELaunchDone? && !e.EEvictSecondDone?
    ensures Apply(s, e).live <= s.live
  {
    match e
    case EPassStarts(alive) =>
      var _ := ScanCases(s, s.now, Snapshot(s));
      var _ := SweepCases(s, Snapshot(s));
    case EReapDone => var _ := ScanCases(Bury(s), s.reaper.passNow, s.reaper.rest);
    case ESweepDone => var _ := SweepCases(s, s.reaper.rest);
    case _ =>
  }

  lemma SubsetSize<T>(a: set<T>, b: set<T>)
    requires a <= b
    ensures |a| <= |b|
  {
    assert b == a + (b - a);
  }

  lemma LaunchStaysWithin(s: State, t: Task)
    requires Shape(s) && Enabled(s, ELaunchDone(t)) && |s.live| <= s.cfg.maxSessions
    ensures |LaunchDone(s, t).live| <= s.cfg.maxSessions
  {
  }

  /**
    A registry within the cap leaves it in exactly one way: a create resumes from its
    second eviction in a full registry from which somebody else has removed the victim.
  */
  lemma OvershootIffLateInsert(s: State, e: Event)
    requires Inv(s) && Enabled(s, e) && |s.live| <= s.cfg.maxSessions
    ensures |Apply(s, e).live| > s.cfg.maxSessions <==>
      e.EEvictSecondDone? && |s.live| == s.cfg.maxSessions && s.tasks[e.t].victim !in s.live
  {
    if e.EEvictSecondDone? {
      var s' := EvictSecondDone(s, e.t);
      assert s'.live == s.live - {s.tasks[e.t].victim} + {|s.recs|};
    } else if e.ELaunchDone? {
      LaunchStaysWithin(s, e.t);
    } else {
      OnlyCreateGrows(s, e);
      SubsetSize(Apply(s, e).live, s.live);
    }
  }

  lemma CapacityOfEveryRun(s: State)
    requires Reachable(s)
    ensures |s.live| <= s.cfg.maxSessions + s.ledger.lateInserts
  {
    ReachableInv(s);
  }

  // ---- conservation --------------------------------------------------------------------

  /** Every session ever created is registered or was counted on its way out, once per pop. */
  lemma ConservationOfEveryRun(s: State)
    requires Reachable(s)
    ensures s.totals.created + s.ledger.noopPops
      == |s.live| + s.totals.reaped + s.totals.deleted + s.totals.evicted + s.ledger.dropped
    ensures s.totals.created == |s.recs| && s.totals.reaped == |s.reapLog|
  {
    ReachableInv(s);
  }

  /** The public counters add up exactly in those runs in which every pop found its record. */
  lemma CountersAreExactIff(s: State)
    requires Reachable(s)
    ensures s.totals.created <= |s.live| + s.totals.reaped + s.totals.deleted + s.totals.evicted + s.ledger.dropped
    ensures s.totals.created == |s.live| + s.totals.reaped + s.totals.deleted + s.totals.evicted + s.ledger.dropped
      <==> s.ledger.noopPops == 0
  {
    ReachableInv(s);
  }

  // ---- claims and locks ------------------------------------------------------------------

  /** No record is claimed by two of the pending evictions and the reaper. */
  lemma ClaimIsUnique(s: State, a: Who, b: Who, sid: Sid)
    requires Reachable(s) && ClaimedBy(s, a, sid) && ClaimedBy(s, b, sid)
    ensures a == b && sid < |s.recs| && s.recs[sid].closing
  {
    ReachableInv(s);
  }

  /** A lock is held by a pending task or kept by a finished reap, never both, and else it is free. */
  lemma LockedIff(s: State, sid: Sid)
    requires Reachable(s) && sid < |s.recs|
    ensures Locked(s.recs[sid].lock) <==> Reaped(s, sid) || exists who :: PhaseOf(s, who, sid) == Holds
    ensures !(Reaped(s, sid) && exists who :: PhaseOf(s, who, sid) == Holds)
  {
    ReachableInv(s);
    assert LockOk(s, sid);
    match s.recs[sid].lock.holder
    case Free =>
    case By(w) => assert PhaseOf(s, w, sid) == Holds;
    case Retired =>
  }

  /** Running an action, tearing down a delete, reading a status, or reaping. */
  predicate Working(s: State, who: Who, sid: Sid) {
    match who
    case Request(t, timed) =>
      t < |s.tasks| && s.tasks[t].Body? && s.tasks[t].sid == sid && timed == (s.tasks[t].kind != Probe)
    case Reaper => s.reaper.Teardown? && s.reaper.claim.sid == sid
  }

  lemma OneAtATime(s: State, a: Who, b: Who, sid: Sid)
    requires Reachable(s) && Working(s, a, sid) && Working(s, b, sid)
    ensures a == b && sid < |s.recs| && s.recs[sid].lock.holder == By(a)
  {
    ReachableInv(s);
    assert sid < |s.recs| by {
      if a.Request? {
        assert PcShape(s.tasks[a.task], |s.recs|, s.nextEng);
      }
    }
    assert LockOk(s, sid);
    assert PhaseOf(s, a, sid) == Holds && PhaseOf(s, b, sid) == Holds;
  }

  /** Whoever may move next on the lock of a session. */
  predicate CanMove(s: State, who: Who, sid: Sid)
    requires Shape(s)
  {
    match who
    case Reaper => Enabled(s, EReaperLocks) || Enabled(s, EReapDone)
    case Request(t, _) =>
      || Enabled(s, EWaiterRuns(t)) || Enabled(s, EGivesUp(t)) || Enabled(s, ETimesOut(t))
      || Enabled(s, EBodyStarts(t)) || Enabled(s, EBodyEnds(t, Success))
  }

  lemma HolderCanMove(s: State, w: Who, sid: Sid)
    requires Shape(s) && PhaseOf(s, w, sid) == Holds
    ensures CanMove(s, w, sid)
  {
  }

  lemma HeadCanMove(s: State, sid: Sid)
    requires Shape(s) && sid < |s.recs| && LockOk(s, sid)
    requires s.recs[sid].lock.holder == Free && |s.recs[sid].lock.waiters| > 0
    ensures CanMove(s, s.recs[sid].lock.waiters[0].who, sid)
  {
    var l := s.recs[sid].lock;
    var head := l.waiters[0].who;
    assert head in Queue(l);
    assert Place(l, head) == 0;
    assert PhaseOf(s, head, sid) == Queueing;
    assert IsWaiting(l, head, Woken) || IsWaiting(l, head, Cancelled);
  }

  lemma WaiterCanGiveUp(s: State, who: Who, sid: Sid)
    requires Shape(s) && sid < |s.recs| && LockOk(s, sid) && PhaseOf(s, who, sid) == Queueing
    requires s.recs[sid].lock.holder == Retired
    ensures who.HasDeadline() && CanMove(s, who, sid)
  {
  }

  /**
    Nobody is stuck on a lock.  The holder can run; a free lock has a head that can run; and
    a lock the reaper has retired has only waiters with a deadline, each of which can give up.
  */
  lemma NobodyIsStuck(s: State, who: Who, sid: Sid)
    requires Reachable(s) && Shape(s) && sid < |s.recs| && PhaseOf(s, who, sid) == Queueing
    ensures var l := s.recs[sid].lock;
      match l.holder
      case Free => |l.waiters| > 0 && CanMove(s, l.waiters[0].who, sid)
      case By(w) => PhaseOf(s, w, sid) == Holds && CanMove(s, w, sid)
      case Retired => who.HasDeadline() && CanMove(s, who, sid)
  {
    ReachableInv(s);
    assert LockOk(s, sid);
    assert who in Queue(s.recs[sid].lock);
    match s.recs[sid].lock.holder
    case Free => HeadCanMove(s, sid);
    case By(w) =>
      assert PhaseOf(s, w, sid) == Holds;
      HolderCanMove(s, w, sid);
    case Retired => WaiterCanGiveUp(s, who, sid);
  }

  /** The reaper, which waits without a deadline, only ever waits for a request. */
  lemma ReaperWaitsForRequestsOnly(s: State)
    requires Reachable(s) && Shape(s) && s.reaper.LockWait?
    ensures var l := s.recs[s.reaper.claim.sid].lock;
      l.holder != Retired && l.holder != By(Reaper)
      && forall i :: 0 <= i < |l.waiters| && l.waiters[i].status == Cancelled ==> l.waiters[i].who.HasDeadline()
  {
    ReachableInv(s);
    var sid := s.reaper.claim.sid;
    assert LockOk(s, sid);
    assert ClaimedBy(s, Reaper, sid);
    assert PhaseOf(s, Reaper, sid) == Queueing;
  }

  // ---- engine sessions -------------------------------------------------------------------

  /** Each engine session ever started is closed, registered, or still with its create. */
  lemma NoEngineSessionIsLost(s: State, eng: Eng)
    requires Reachable(s) && eng < s.nextEng && eng !in s.closed
    ensures (exists sid: Sid :: Registered(s, sid, eng))
         || (exists t: Task :: Carries(s, t, eng) && s.tasks[t].EvictSecond?)
  {
    ReachableInv(s);
    assert Tended(s, eng);
  }

  /** What `get` hands out has never been closed and belongs to no other session. */
  lemma FoundIsOpen(s: State, sid: Sid)
    requires Reachable(s) && Get(s, sid) == Found
    ensures s.recs[sid].eng !in s.closed
    ensures forall x: Sid :: x < |s.recs| && s.recs[x].eng == s.recs[sid].eng ==> x == sid
  {
    ReachableInv(s);
  }

  // ---- tombstones and the life of an id ----------------------------------------------------

  lemma {:induction false} TombstoneFound(ts: seq<(Sid, int)>, i: nat)
    requires i < |ts| && forall j, k :: 0 <= j < k < |ts| ==> ts[j].0 != ts[k].0
    ensures TombstoneOf(ts, ts[i].0) == Some(ts[i].1)
  {
    if i > 0 {
      TombstoneFound(ts[1..], i - 1);
    }
  }

  lemma {:induction false} TombstoneAbsent(ts: seq<(Sid, int)>, sid: Sid)
    requires forall i :: 0 <= i < |ts| ==> ts[i].0 != sid
    ensures TombstoneOf(ts, sid) == None
  {
    if |ts| > 0 {
      TombstoneAbsent(ts[1..], sid);
    }
  }

  /** Entry i of the log of reaps is still remembered. */
  predicate Remembered(s: State, i: int) {
    0 <= i < |s.reapLog| && |s.reapLog| <= i + s.cfg.tombstoneMax
  }

  /** The tombstones are the last `tombstoneMax` reaps, in order, and none of them is registered. */
  lemma TombstonesAreTheLastReaps(s: State)
    requires Reachable(s) && Shape(s)
    ensures s.tombstones == Suffix(Pairs(s, s.reapLog), s.cfg.tombstoneMax)
    ensures |s.tombstones| <= s.cfg.tombstoneMax
    ensures forall j, k :: 0 <= j < k < |s.tombstones| ==> s.tombstones[j].0 != s.tombstones[k].0
    ensures forall j :: 0 <= j < |s.tombstones| ==> s.tombstones[j].0 !in s.live
  {
    ReachableInv(s);
  }

  /** The answer for a reaped id: expired, with its own timeout, while remembered; then unknown. */
  lemma ReapedAnswer(s: State, i: nat)
    requires Reachable(s) && i < |s.reapLog| && Shape(s)
    ensures var sid := s.reapLog[i].sid;
      Get(s, sid) == if Remembered(s, i) then Expired(s.recs[sid].idleTimeout) else Unknown
  {
    ReachableInv(s);
    LookupInSuffix(Pairs(s, s.reapLog), s.cfg.tombstoneMax, i);
  }

  /** Looking up an id among the last n of a list of pairs with distinct ids. */
  lemma LookupInSuffix(all: seq<(Sid, int)>, n: nat, i: nat)
    requires i < |all| && forall j, k :: 0 <= j < k < |all| ==> all[j].0 != all[k].0
    ensures TombstoneOf(Suffix(all, n), all[i].0) == if |all| <= i + n then Some(all[i].1) else None
  {
    var last := Suffix(all, n);
    var cut := |all| - |last|;
    assert forall j :: 0 <= j < |last| ==> last[j] == all[cut + j];
    if |all| <= i + n {
      forall j, k | 0 <= j < k < |last| ensures last[j].0 != last[k].0 {
        assert all[cut + j].0 != all[cut + k].0;
      }
      TombstoneFound(last, i - cut);
    } else {
      forall j | 0 <= j < |last| ensures last[j].0 != all[i].0 {
        assert all[i].0 != all[cut + j].0;
      }
      TombstoneAbsent(last, all[i].0);
    }
  }

  /** The answer for an id that was never reaped. */
  lemma UnreapedAnswer(s: State, sid: Sid)
    requires Reachable(s) && sid < |s.recs| && !Reaped(s, sid)
    ensures Get(s, sid) == if sid in s.live && !s.recs[sid].closing then Found else Unknown
  {
    ReachableInv(s);
    TombstonesAreTheLastReaps(s);
    var all := Pairs(s, s.reapLog);
    forall j | 0 <= j < |s.tombstones| ensures s.tombstones[j].0 != sid {
      assert s.tombstones[j] == all[|all| - |s.tombstones| + j];
      assert s.reapLog[|all| - |s.tombstones| + j].sid == s.tombstones[j].0;
    }
    TombstoneAbsent(s.tombstones, sid);
  }

  predicate SameSession(r: Rec, r': Rec) {
    r'.eng == r.eng && r'.idleTimeout == r.idleTimeout && (r.closing ==> r'.closing)
  }

  /** What no later state undoes. */
  ghost predicate Later(s: State, s': State) {
    && |s.recs| <= |s'.recs| && s'.cfg == s.cfg && s.now <= s'.now
    && (forall i :: 0 <= i < |s.recs| ==> SameSession(s.recs[i], s'.recs[i]) && (i in s'.live ==> i in s.live))
    && |s.reapLog| <= |s'.reapLog| && s'.reapLog[..|s.reapLog|] == s.reapLog
    && s.closed <= s'.closed
  }

  lemma LaterIsTransitive(a: State, b: State, c: State)
    requires Later(a, b) && Later(b, c)
    ensures Later(a, c)
  {
  }

  lemma ScanIsLater(s: State, passNow: real, todo: seq<Sid>)
    requires Within(todo, |s.recs|)
    ensures Later(s, Scan(s, passNow, todo))
  {
  }

  lemma SweepIsLater(s: State, todo: seq<Sid>)
    requires Within(todo, |s.recs|)
    ensures Later(s, Sweep(s, todo))
  {
  }

  lemma ReaperStepIsLater(s: State, e: Event)
    requires Shape(s) && Enabled(s, e) && IsReaper(e)
    ensures Later(s, Apply(s, e))
  {
    match e
    case EPassStarts(alive) =>
      ScanIsLater(s, s.now, Snapshot(s));
      SweepIsLater(s, Snapshot(s));
    case EReaperLocks =>
    case EReapDone =>
      assert Later(s, Bury(s));
      ScanIsLater(Bury(s), s.reaper.passNow, s.reaper.rest);
      LaterIsTransitive(s, Bury(s), Apply(s, e));
    case ESweepDone => SweepIsLater(s, s.reaper.rest);
  }

  lemma QueueStepIsLater(s: State, e: Event)
    requires Shape(s) && Enabled(s, e)
    requires e.EAcquireRuns? || e.EWaiterRuns? || e.ETimesOut? || e.EGivesUp?
    ensures Later(s, Apply(s, e))
  {
  }

  lemma RequestStepIsLater(s: State, e: Event)
    requires Shape(s) && Enabled(s, e) && (e.ECall? || e.EBodyStarts?)
    ensures Later(s, Apply(s, e))
  {
  }

  lemma BodyEndIsLater(s: State, t: Task, o: Outcome)
    requires Shape(s) && Enabled(s, EBodyEnds(t, o))
    ensures Later(s, BodyEnds(s, t, o))
  {
  }

  lemma CreateStepIsLater(s: State, e: Event)
    requires Shape(s) && Enabled(s, e)
    requires e.ECreateCall? || e.EEvictFirstDone? || e.ELaunchDone? || e.EEvictSecondDone?
    ensures Later(s, Apply(s, e))
  {
  }

  lemma StepIsLater(s: State, e: Event)
    requires Shape(s) && Enabled(s, e)
    ensures Later(s, Apply(s, e))
  {
    if IsReaper(e) {
      ReaperStepIsLater(s, e);
    } else if e.EAcquireRuns? || e.EWaiterRuns? || e.ETimesOut? || e.EGivesUp? {
      QueueStepIsLater(s, e);
    } else if e.ECall? || e.EBodyStarts? {
      RequestStepIsLater(s, e);
    } else if e.EBodyEnds? {
      BodyEndIsLater(s, e.t, e.outcome);
    } else if e.ECreateCall? || e.EEvictFirstDone? || e.ELaunchDone? || e.EEvictSecondDone? {
      CreateStepIsLater(s, e);
    }
  }

  lemma {:induction false} RunIsLater(s: State, es: seq<Event>)
    requires Legal(s, es)
    ensures Later(s, Exec(s, es))
    decreases |es|
  {
    if |es| > 0 {
      StepIsLater(s, es[0]);
      RunIsLater(Apply(s, es[0]), es[1..]);
      LaterIsTransitive(s, Apply(s, es[0]), Exec(s, es));
    }
  }

  lemma {:induction false} LegalSplit(s: State, es: seq<Event>, fs: seq<Event>)
    requires Legal(s, es) && Legal(Exec(s, es), fs)
    ensures Legal(s, es + fs) && Exec(s, es + fs) == Exec(Exec(s, es), fs)
    decreases |es|
  {
    if |es| == 0 {
      assert es + fs == fs;
    } else {
      LegalSplit(Apply(s, es[0]), es[1..], fs);
      assert (es + fs)[1..] == es[1..] + fs;
    }
  }

  lemma RunIsReachable(s: State, es: seq<Event>)
    requires Reachable(s) && Legal(s, es)
    ensures Reachable(Exec(s, es))
  {
    var cfg, now, before :| Legal(Init(cfg, now), before) && Exec(Init(cfg, now), before) == s;
    LegalSplit(Init(cfg, now), before, es);
  }

  /**
    The life of an issued id.  Once `get` stops finding it, no later `get` finds it.  Once it
    is reaped, every later answer is fixed by how many sessions were reaped after it.
  */
  lemma LifeOfAnId(s: State, es: seq<Event>, sid: Sid)
    requires Reachable(s) && Legal(s, es) && Shape(s) && sid < |s.recs|
    ensures var s' := Exec(s, es);
      && (Get(s, sid) != Found ==> Get(s', sid) != Found)
      && (forall i :: 0 <= i < |s.reapLog| && s.reapLog[i].sid == sid ==>
            Get(s', sid) == if Remembered(s', i) then Expired(s.recs[sid].idleTimeout) else Unknown)
  {
    var s' := Exec(s, es);
    RunIsReachable(s, es);
    RunIsLater(s, es);
    ReachableInv(s');
    forall i | 0 <= i < |s.reapLog| && s.reapLog[i].sid == sid
      ensures Get(s', sid) == if Remembered(s', i) then Expired(s.recs[sid].idleTimeout) else Unknown
    {
      assert s'.reapLog[..|s.reapLog|][i] == s'.reapLog[i];
      ReapedAnswer(s', i);
    }
  }
}
