/**
  What each segment does to the clocks, the counters and the registry, said field by field, and
  what follows for whole runs: a session in use is not reaped, and a new one gets the timeout
  its caller asked for.
*/
module RegistryEffects {
  import opened Common
  import opened AsyncLock
  import opened HttpErrors
  import opened Registry
  import opened RegistryInv
  import opened RegistrySteps
  import opened RegistryTheorems
  import opened RegistryPolicy
  import opened RegistryProgress

  function Bit(b: bool): nat {
    if b then 1 else 0
  }

  // ---- the idle clock ----------------------------------------------------------------------

  /** The segment ends an action on this session that found what it asked for, or a 404. */
  predicate IsUse(s: State, e: Event, sid: Sid) {
    && e.EBodyEnds? && e.t < |s.tasks| && s.tasks[e.t].Body? && s.tasks[e.t].kind == Action
    && s.tasks[e.t].sid == sid && OutcomeStatus(e.outcome) in {200, 404}
  }

  /** Nothing but a use moves the idle clock of an issued session, and a use sets it to now. */
  ghost predicate IdleClocksMove(s: State, e: Event, s': State) {
    && |s.recs| <= |s'.recs|
    && forall x: Sid :: x < |s.recs| ==>
         s'.recs[x].lastUsed == if IsUse(s, e, x) then s.now else s.recs[x].lastUsed
  }

  lemma ActionEndsClock(s: State, e: Event)
    requires Shape(s) && Enabled(s, e) && e.EBodyEnds?
    ensures IdleClocksMove(s, e, Apply(s, e))
  {
  }

  lemma PassLeavesClocks(s: State, alive: bool)
    requires Shape(s) && Enabled(s, EPassStarts(alive))
    ensures IdleClocksMove(s, EPassStarts(alive), PassStarts(s, alive))
  {
    var _ := ScanCases(s, s.now, Snapshot(s));
    var _ := SweepCases(s, Snapshot(s));
  }

  lemma ReapLeavesClocks(s: State)
    requires Shape(s) && Enabled(s, EReapDone)
    ensures IdleClocksMove(s, EReapDone, ReapDone(s))
  {
    var _ := ScanCases(Bury(s), s.reaper.passNow, s.reaper.rest);
  }

  lemma ReaperLeavesClocks(s: State, e: Event)
    requires Shape(s) && Enabled(s, e) && IsReaper(e)
    ensures IdleClocksMove(s, e, Apply(s, e))
  {
    if e.EPassStarts? {
      PassLeavesClocks(s, e.alive);
    } else if e.EReapDone? {
      ReapLeavesClocks(s);
    } else if e.ESweepDone? {
      var _ := SweepCases(s, s.reaper.rest);
    }
  }

  lemma CreateLeavesClocks(s: State, e: Event)
    requires Shape(s) && Enabled(s, e)
    requires e.Tick? || e.ECreateCall? || e.EEvictFirstDone? || e.ELaunchDone? || e.ELaunchFailed? || e.ERejectDone?
          || e.EEvictSecondDone?
    ensures IdleClocksMove(s, e, Apply(s, e))
  {
  }

  lemma QueueLeavesClocks(s: State, e: Event)
    requires Shape(s) && Enabled(s, e)
    requires e.EAcquireRuns? || e.EWaiterRuns? || e.ETimesOut? || e.EGivesUp?
    ensures IdleClocksMove(s, e, Apply(s, e))
  {
  }

  lemma RequestLeavesClocks(s: State, e: Event)
    requires Shape(s) && Enabled(s, e)
    requires e.ECall? || e.EBodyStarts? || e.EResetCall? || e.EPurgeDone?
    ensures IdleClocksMove(s, e, Apply(s, e))
  {
  }

  lemma IdleClockMovesIff(s: State, e: Event)
    requires Shape(s) && Enabled(s, e)
    ensures IdleClocksMove(s, e, Apply(s, e))
  {
    if e.EBodyEnds? {
      ActionEndsClock(s, e);
    } else if IsReaper(e) {
      ReaperLeavesClocks(s, e);
    } else if e.EAcquireRuns? || e.EWaiterRuns? || e.ETimesOut? || e.EGivesUp? {
      QueueLeavesClocks(s, e);
    } else if e.ECall? || e.EBodyStarts? || e.EResetCall? || e.EPurgeDone? {
      RequestLeavesClocks(s, e);
    } else {
      CreateLeavesClocks(s, e);
    }
  }

  /** Used at `since` or later; and if the reaper has it, then for more than its timeout after that. */
  ghost predicate InUseSince(s: State, sid: Sid, since: real, timeout: int) {
    && sid < |s.recs| && s.recs[sid].lastUsed >= since && s.recs[sid].idleTimeout == timeout
    && (ClaimedBy(s, Reaper, sid) ==> s.now - since > timeout as real)
  }

  lemma StaysInUse(s: State, e: Event, sid: Sid, since: real, timeout: int)
    requires Inv(s) && Enabled(s, e) && InUseSince(s, sid, since, timeout)
    ensures InUseSince(Apply(s, e), sid, since, timeout)
  {
    IdleClockMovesIff(s, e);
    StepIsLater(s, e);
    if ClaimedBy(Apply(s, e), Reaper, sid) && !ClaimedBy(s, Reaper, sid) {
      ReaperClaimIsSound(s, e, sid);
    }
  }

  lemma {:induction false} RunStaysInUse(s: State, es: seq<Event>, sid: Sid, since: real, timeout: int)
    requires Inv(s) && Legal(s, es) && InUseSince(s, sid, since, timeout)
    ensures InUseSince(Exec(s, es), sid, since, timeout)
    decreases |es|
  {
    if |es| > 0 {
      StaysInUse(s, es[0], sid, since, timeout);
      KeepsInv(s, es[0]);
      RunStaysInUse(Apply(s, es[0]), es[1..], sid, since, timeout);
    }
  }

  /**
    A session that an action has just used is safe for its whole timeout: whatever happens
    afterwards, the reaper does not take it before more than that has passed.
  */
  lemma UsedSessionIsSafe(s: State, e: Event, es: seq<Event>, sid: Sid)
    requires Reachable(s) && Shape(s) && Enabled(s, e) && sid < |s.recs| && IsUse(s, e, sid)
    requires !ClaimedBy(s, Reaper, sid)
    requires Legal(Apply(s, e), es) && ClaimedBy(Exec(Apply(s, e), es), Reaper, sid)
    ensures Exec(Apply(s, e), es).now - s.now > s.recs[sid].idleTimeout as real
  {
    ReachableInv(s);
    var s1 := Apply(s, e);
    IdleClockMovesIff(s, e);
    StepIsLater(s, e);
    KeepsInv(s, e);
    if ClaimedBy(s1, Reaper, sid) {
      ReaperClaimIsSound(s, e, sid);
      OnlyReaperEvents(s, e);
    }
    RunStaysInUse(s1, es, sid, s.now, s.recs[sid].idleTimeout);
  }

  // ---- the counters ------------------------------------------------------------------------

  /** A create finds the registry full and everybody in it spared. */
  ghost predicate NoRoom(s: State)
    requires Shape(s)
  {
    |s.live| >= s.cfg.maxSessions && forall x: Sid :: x in s.live ==> Spared(s, x)
  }

  /** Each public counter counts exactly the segments it is named after. */
  ghost predicate CountersMove(s: State, e: Event, s': State)
    requires Shape(s) && Enabled(s, e)
  {
    var a, b := s.totals, s'.totals;
    && b.created == a.created + Bit(e.EEvictSecondDone? || (e.ELaunchDone? && |s.live| < s.cfg.maxSessions))
    && b.reaped == a.reaped + Bit(e.EReapDone?)
    && b.deleted == a.deleted + Bit(e.EPurgeDone? || (e.EBodyEnds? && s.tasks[e.t].kind == Delete))
    && b.rejected == a.rejected + Bit(e.ERejectDone? || (e.ECreateCall? && NoRoom(s)))
    && b.evicted == a.evicted + Bit(e.EEvictFirstDone? || e.EEvictSecondDone?)
    && b.actions == a.actions + Bit(e.EBodyStarts? && s.tasks[e.t].kind == Action)
    && b.actionErrors == a.actionErrors +
         Bit(e.EBodyEnds? && s.tasks[e.t].kind == Action && OutcomeStatus(e.outcome) >= 500)
  }

  lemma RequestCounts(s: State, e: Event)
    requires Shape(s) && Enabled(s, e)
    requires e.ECall? || e.EBodyStarts? || e.EBodyEnds?
    ensures CountersMove(s, e, Apply(s, e))
  {
    if e.EBodyStarts? {
      assert PcShape(s.tasks[e.t], |s.recs|, s.nextEng);
    }
  }

  lemma QueueCounts(s: State, e: Event)
    requires Shape(s) && Enabled(s, e)
    requires e.EAcquireRuns? || e.EWaiterRuns? || e.ETimesOut? || e.EGivesUp? || e.Tick?
    ensures CountersMove(s, e, Apply(s, e))
  {
  }

  lemma ResetCounts(s: State, e: Event)
    requires Shape(s) && Enabled(s, e) && (e.EResetCall? || e.EPurgeDone?)
    ensures CountersMove(s, e, Apply(s, e))
  {
  }

  lemma CreateCounts(s: State, e: Event)
    requires Shape(s) && Enabled(s, e)
    requires e.EEvictFirstDone? || e.ELaunchDone? || e.ELaunchFailed? || e.ERejectDone? || e.EEvictSecondDone?
    ensures CountersMove(s, e, Apply(s, e))
  {
  }

  lemma CreateCallCounts(s: State, requested: Option<int>)
    requires Shape(s)
    ensures CountersMove(s, ECreateCall(requested), CreateCall(s, requested))
  {
    RefusedIffNoCandidate(s, requested, 0);
  }

  lemma PassCounts(s: State, alive: bool)
    requires Shape(s) && Enabled(s, EPassStarts(alive))
    ensures CountersMove(s, EPassStarts(alive), PassStarts(s, alive))
  {
    var _ := ScanCases(s, s.now, Snapshot(s));
    var _ := SweepCases(s, Snapshot(s));
  }

  lemma ReapCounts(s: State)
    requires Shape(s) && Enabled(s, EReapDone)
    ensures CountersMove(s, EReapDone, ReapDone(s))
  {
    var _ := ScanCases(Bury(s), s.reaper.passNow, s.reaper.rest);
  }

  lemma ReaperCounts(s: State, e: Event)
    requires Shape(s) && Enabled(s, e) && IsReaper(e)
    ensures CountersMove(s, e, Apply(s, e))
  {
    if e.EPassStarts? {
      PassCounts(s, e.alive);
    } else if e.EReapDone? {
      ReapCounts(s);
    } else if e.ESweepDone? {
      var _ := SweepCases(s, s.reaper.rest);
    }
  }

  lemma CountersMoveIff(s: State, e: Event)
    requires Shape(s) && Enabled(s, e)
    ensures CountersMove(s, e, Apply(s, e))
  {
    if IsReaper(e) {
      ReaperCounts(s, e);
    } else if e.ECreateCall? {
      CreateCallCounts(s, e.requested);
    } else if e.ECall? || e.EBodyStarts? || e.EBodyEnds? {
      RequestCounts(s, e);
    } else if e.EResetCall? || e.EPurgeDone? {
      ResetCounts(s, e);
    } else if e.EAcquireRuns? || e.EWaiterRuns? || e.ETimesOut? || e.EGivesUp? || e.Tick? {
      QueueCounts(s, e);
    } else {
      CreateCounts(s, e);
    }
  }

  // ---- the registry ------------------------------------------------------------------------

  /** The record that the segment pops, if it pops one. */
  function Popped(s: State, e: Event): set<Sid>
    requires Shape(s) && Enabled(s, e)
  {
    match e
    case EEvictFirstDone(t) => {s.tasks[t].victim}
    case EEvictSecondDone(t) => {s.tasks[t].victim}
    case EBodyEnds(t, _) => if s.tasks[t].kind == Delete then {s.tasks[t].sid} else {}
    case EPurgeDone(t) => {s.tasks[t].sid}
    case EReapDone => {s.reaper.claim.sid}
    case _ => {}
  }

  predicate Inserts(s: State, e: Event) {
    e.EEvictSecondDone? || (e.ELaunchDone? && |s.live| < s.cfg.maxSessions)
  }

  ghost predicate RegistryMove(s: State, e: Event, s': State)
    requires Shape(s) && Enabled(s, e)
  {
    && s'.live == s.live - Popped(s, e) + (if Inserts(s, e) then {|s.recs|} else {})
    && |s'.recs| == |s.recs| + Bit(Inserts(s, e))
  }

  lemma Untouched(s: State, e: Event, s': State)
    requires Shape(s) && Enabled(s, e) && Popped(s, e) == {} && !Inserts(s, e)
    requires s'.live == s.live && |s'.recs| == |s.recs|
    ensures RegistryMove(s, e, s')
  {
  }

  lemma ReaperMoves(s: State, e: Event)
    requires Shape(s) && Enabled(s, e) && IsReaper(e) && e != EPassStarts(false) && !e.ESweepDone?
    ensures RegistryMove(s, e, Apply(s, e))
  {
    match e
    case EPassStarts(alive) => var _ := ScanCases(s, s.now, Snapshot(s));
    case EReapDone => var _ := ScanCases(Bury(s), s.reaper.passNow, s.reaper.rest);
    case _ =>
  }

  lemma LaunchMoves(s: State, t: Task)
    requires Shape(s) && Enabled(s, ELaunchDone(t))
    ensures RegistryMove(s, ELaunchDone(t), LaunchDone(s, t))
  {
    if |s.live| < s.cfg.maxSessions {
      assert LaunchDone(s, t).live == s.live + {|s.recs|};
    } else {
      LaunchKeepsRegistry(s, t);
      Untouched(s, ELaunchDone(t), LaunchDone(s, t));
    }
  }

  lemma LaunchKeepsRegistry(s: State, t: Task)
    requires Shape(s) && Enabled(s, ELaunchDone(t)) && |s.live| >= s.cfg.maxSessions
    ensures LaunchDone(s, t).live == s.live && |LaunchDone(s, t).recs| == |s.recs|
  {
  }

  lemma EvictionMoves(s: State, e: Event)
    requires Shape(s) && Enabled(s, e) && (e.EEvictFirstDone? || e.EEvictSecondDone?)
    ensures RegistryMove(s, e, Apply(s, e))
  {
  }

  lemma CreateMoves(s: State, e: Event)
    requires Shape(s) && Enabled(s, e) && (e.ECreateCall? || e.ELaunchFailed? || e.ERejectDone? || e.Tick?)
    ensures RegistryMove(s, e, Apply(s, e))
  {
    Untouched(s, e, Apply(s, e));
  }

  lemma QueueMoves(s: State, e: Event)
    requires Shape(s) && Enabled(s, e) && (e.EAcquireRuns? || e.EWaiterRuns? || e.ETimesOut? || e.EGivesUp?)
    ensures RegistryMove(s, e, Apply(s, e))
  {
    Untouched(s, e, Apply(s, e));
  }

  lemma RequestMoves(s: State, e: Event)
    requires Shape(s) && Enabled(s, e) && (e.ECall? || e.EBodyStarts? || e.EResetCall?)
    ensures RegistryMove(s, e, Apply(s, e))
  {
    Untouched(s, e, Apply(s, e));
  }

  lemma BodyEndMoves(s: State, e: Event)
    requires Shape(s) && Enabled(s, e) && (e.EBodyEnds? || e.EPurgeDone?)
    ensures RegistryMove(s, e, Apply(s, e))
  {
  }

  /** Over a live engine the registry loses exactly what is popped and gains exactly what is inserted. */
  lemma RegistryMoves(s: State, e: Event)
    requires Shape(s) && Enabled(s, e) && e != EPassStarts(false) && !e.ESweepDone?
    ensures RegistryMove(s, e, Apply(s, e))
  {
    if IsReaper(e) {
      ReaperMoves(s, e);
    } else if e.ELaunchDone? {
      LaunchMoves(s, e.t);
    } else if e.EEvictFirstDone? || e.EEvictSecondDone? {
      EvictionMoves(s, e);
    } else if e.ECreateCall? || e.ELaunchFailed? || e.ERejectDone? || e.Tick? {
      CreateMoves(s, e);
    } else if e.EAcquireRuns? || e.EWaiterRuns? || e.ETimesOut? || e.EGivesUp? {
      QueueMoves(s, e);
    } else if e.ECall? || e.EBodyStarts? || e.EResetCall? {
      RequestMoves(s, e);
    } else {
      BodyEndMoves(s, e);
    }
  }

  /**
    The timeout a caller gets: the default if it names none, else what it names, kept within the
    bounds.  Of bounds that contradict each other the lower one wins.
  */
  predicate IsTimeoutFor(cfg: Config, requested: Option<int>, given: int) {
    match requested
    case None => given == cfg.idleDefault
    case Some(r) =>
      && cfg.idleMin <= given && (cfg.idleMin <= cfg.idleMax ==> given <= cfg.idleMax)
      && (cfg.idleMin <= r <= cfg.idleMax ==> given == r)
      && (r < cfg.idleMin ==> given == cfg.idleMin)
      && (r > cfg.idleMax >= cfg.idleMin ==> given == cfg.idleMax)
      && (cfg.idleMin > cfg.idleMax ==> given == cfg.idleMin)
  }

  /** A session is inserted visible, free, used just now, and with the timeout its own create asked for. */
  lemma InsertedAsRequested(s: State, e: Event)
    requires Shape(s) && Enabled(s, e) && Inserts(s, e)
    ensures var s', sid := Apply(s, e), |s.recs|;
      && |s'.recs| == sid + 1 && sid in s'.live && s'.tasks[e.t].Created? && s'.tasks[e.t].sid == sid
      && IsTimeoutFor(s.cfg, s.tasks[e.t].requested, s'.recs[sid].idleTimeout)
      && s'.recs[sid].lastUsed == s.now && !s'.recs[sid].closing && s'.recs[sid].lock == UNLOCKED
      && Get(s', sid) == Found
      && s'.tasks[e.t].reported == (if e.ELaunchDone? then s.tasks[e.t].evicted else Some(s.tasks[e.t].victim))
      && s'.recs[sid].eng == if e.ELaunchDone? then s.nextEng else s.tasks[e.t].eng
  {
  }

  /** What the caller asked for stays with the create until it ends. */
  lemma RequestIsKept(s: State, e: Event, t: Task)
    requires Shape(s) && Enabled(s, e) && t < |s.tasks|
    requires s.tasks[t].EvictFirst? || s.tasks[t].Launching?
    ensures t < |Apply(s, e).tasks| && KeepsRequest(s.tasks[t], Apply(s, e).tasks[t])
  {
    if IsReaper(e) {
      ReaperLeavesTasks(s, e);
    } else if e.ELaunchDone? {
      LaunchKeepsRequest(s, e.t, t);
    } else if e.ECreateCall? || e.EEvictFirstDone? || e.ELaunchFailed? || e.ERejectDone? || e.EEvictSecondDone? {
      CreateKeepsRequest(s, e, t);
    } else if e.EAcquireRuns? || e.EWaiterRuns? || e.ETimesOut? || e.EGivesUp? || e.Tick? {
      QueueKeepsRequest(s, e, t);
    } else if e.EResetCall? || e.EPurgeDone? {
      ResetKeepsRequest(s, e, t);
    } else if e.EBodyEnds? {
      BodyEndKeepsRequest(s, e.t, e.outcome, t);
    } else {
      OthersKeepRequest(s, e, t);
    }
  }

  predicate KeepsRequest(pc: Pc, pc': Pc)
    requires pc.EvictFirst? || pc.Launching?
  {
    pc'.EvictFirst? || pc'.Launching? || pc'.EvictSecond? ==> pc'.requested == pc.requested
  }

  lemma LaunchKeepsRequest(s: State, u: Task, t: Task)
    requires Shape(s) && Enabled(s, ELaunchDone(u))
    requires t < |s.tasks| && (s.tasks[t].EvictFirst? || s.tasks[t].Launching?)
    ensures t < |LaunchDone(s, u).tasks| && KeepsRequest(s.tasks[t], LaunchDone(s, u).tasks[t])
  {
  }

  lemma CreateKeepsRequest(s: State, e: Event, t: Task)
    requires Shape(s) && Enabled(s, e) && t < |s.tasks| && (s.tasks[t].EvictFirst? || s.tasks[t].Launching?)
    requires e.ECreateCall? || e.EEvictFirstDone? || e.ELaunchFailed? || e.ERejectDone? || e.EEvictSecondDone?
    ensures t < |Apply(s, e).tasks| && KeepsRequest(s.tasks[t], Apply(s, e).tasks[t])
  {
  }

  lemma QueueKeepsRequest(s: State, e: Event, t: Task)
    requires Shape(s) && Enabled(s, e) && t < |s.tasks| && (s.tasks[t].EvictFirst? || s.tasks[t].Launching?)
    requires e.EAcquireRuns? || e.EWaiterRuns? || e.ETimesOut? || e.EGivesUp? || e.Tick?
    ensures t < |Apply(s, e).tasks| && KeepsRequest(s.tasks[t], Apply(s, e).tasks[t])
  {
  }

  lemma OthersKeepRequest(s: State, e: Event, t: Task)
    requires Shape(s) && Enabled(s, e) && t < |s.tasks| && (s.tasks[t].EvictFirst? || s.tasks[t].Launching?)
    requires e.ECall? || e.EBodyStarts?
    ensures t < |Apply(s, e).tasks| && KeepsRequest(s.tasks[t], Apply(s, e).tasks[t])
  {
  }

  lemma BodyEndKeepsRequest(s: State, u: Task, o: Outcome, t: Task)
    requires Shape(s) && Enabled(s, EBodyEnds(u, o))
    requires t < |s.tasks| && (s.tasks[t].EvictFirst? || s.tasks[t].Launching?)
    ensures t < |BodyEnds(s, u, o).tasks| && KeepsRequest(s.tasks[t], BodyEnds(s, u, o).tasks[t])
  {
  }

  lemma ResetKeepsRequest(s: State, e: Event, t: Task)
    requires Shape(s) && Enabled(s, e) && t < |s.tasks| && (s.tasks[t].EvictFirst? || s.tasks[t].Launching?)
    requires e.EResetCall? || e.EPurgeDone?
    ensures t < |Apply(s, e).tasks| && KeepsRequest(s.tasks[t], Apply(s, e).tasks[t])
  {
  }

  // ---- where a request goes ------------------------------------------------------------------

  /** The first segment of a create launches below the cap, and otherwise evicts or gives up. */
  lemma CreateGoesWhere(s: State, requested: Option<int>)
    requires Shape(s)
    ensures var pc := CreateCall(s, requested).tasks[|s.tasks|];
      && (pc.Launching? <==> |s.live| < s.cfg.maxSessions)
      && (pc.Failed? <==> NoRoom(s))
      && (pc.EvictFirst? <==> |s.live| >= s.cfg.maxSessions && !NoRoom(s))
      && (pc.Launching? ==> pc.requested == requested)
      && (pc.EvictFirst? ==> pc.requested == requested && IsLongestUnused(s, pc.victim))
  {
    assert forall c: Sid :: c in s.live ==> (Evictable(s, c) <==> !Spared(s, c));
    if Oldest(s).Some? {
      LongestUnused(s);
    }
  }

  /** With the engine session in hand a create inserts below the cap, and otherwise evicts or gives up. */
  lemma LaunchGoesWhere(s: State, t: Task)
    requires Shape(s) && Enabled(s, ELaunchDone(t))
    ensures var pc := LaunchDone(s, t).tasks[t];
      && (pc.Created? <==> |s.live| < s.cfg.maxSessions)
      && (pc.Rejecting? <==> NoRoom(s))
      && (pc.EvictSecond? <==> |s.live| >= s.cfg.maxSessions && !NoRoom(s))
      && (pc.EvictSecond? ==> IsLongestUnused(s, pc.victim))
  {
    var s1 := s.(nextEng := s.nextEng + 1);
    assert forall c: Sid :: c in s.live ==> (Evictable(s1, c) <==> !Spared(s, c));
    ShapeGrows(s, s1);
    if Oldest(s1).Some? {
      LongestUnused(s1);
      assert forall c: Sid :: c in s.live ==> (Spared(s1, c) <==> Spared(s, c));
    }
  }

  /** A request on a session it cannot find ends; a probe never waits for a lock that is held. */
  lemma CallGoesWhere(s: State, kind: Kind, sid: Sid)
    requires Shape(s)
    ensures var s', t := Call(s, kind, sid), |s.tasks|;
      var pc := s'.tasks[t];
      && (Get(s, sid) != Found ==> pc == Ended && s'.recs == s.recs)
      && (Get(s, sid) == Found && kind != Probe ==> pc == Got(kind, sid) && s'.recs == s.recs)
      && (Get(s, sid) == Found && kind == Probe && Locked(s.recs[sid].lock) ==> pc == Ended && s'.recs == s.recs)
      && (Get(s, sid) == Found && kind == Probe && CanTake(s.recs[sid].lock) ==> pc == Body(Probe, sid))
      && (pc.Waiting? ==> kind == Probe && !Locked(s.recs[sid].lock))
  {
  }

  /** A deadline that passes before the acquiring task has run ends the request and touches nothing. */
  lemma TimeoutBeforeQueueing(s: State, t: Task)
    requires Shape(s) && Enabled(s, ETimesOut(t)) && s.tasks[t].Got?
    ensures TimesOut(s, t) == s.(tasks := s.tasks[t := Ended])
  {
  }

  /** However a body ends, its request is over, the lock is free, and the next in line has been woken. */
  lemma BodyEndFreesTheLock(s: State, t: Task, o: Outcome)
    requires Inv(s) && Enabled(s, EBodyEnds(t, o))
    ensures var s', sid := BodyEnds(s, t, o), s.tasks[t].sid;
      var l, l' := s.recs[sid].lock, s'.recs[sid].lock;
      && s'.tasks[t] == Ended && l'.holder == Free && SameOrder(l.waiters, l'.waiters)
      && (|l'.waiters| > 0 ==> l'.waiters[0].status == if l.waiters[0].status == Cancelled then Cancelled else Woken)
  {
    var sid := s.tasks[t].sid;
    assert LockOk(s, sid);
    ReleaseKeepsOrder(s.recs[sid].lock);
    assert BodyEnds(s, t, o).recs[sid].lock == Release(s.recs[sid].lock);
  }

  /** Only the passing of time moves the clock. */
  lemma ClockMoves(s: State, e: Event)
    requires Shape(s) && Enabled(s, e)
    ensures Apply(s, e).now == s.now + if e.Tick? then e.dt else 0.0
  {
    if IsReaper(e) {
      ReaperLeavesNow(s, e);
    }
  }

  lemma ReaperLeavesNow(s: State, e: Event)
    requires Shape(s) && Enabled(s, e) && IsReaper(e)
    ensures Apply(s, e).now == s.now
  {
    match e
    case EPassStarts(alive) =>
      var _ := ScanCases(s, s.now, Snapshot(s));
      var _ := SweepCases(s, Snapshot(s));
    case EReapDone => var _ := ScanCases(Bury(s), s.reaper.passNow, s.reaper.rest);
    case ESweepDone => var _ := SweepCases(s, s.reaper.rest);
    case _ =>
  }

  /** A wait that times out leaves the queue, and its request ends, as soon as its task runs. */
  lemma TimedOutWaitEnds(s: State, t: Task)
    requires Inv(s) && Enabled(s, ETimesOut(t)) && s.tasks[t].Waiting?
    ensures var s1, who, sid := TimesOut(s, t), Asker(t, s.tasks[t].kind), s.tasks[t].sid;
      && Shape(s1) && Enabled(s1, EGivesUp(t))
      && var s2 := GivesUp(s1, t);
         s2.tasks[t] == Ended && who !in Queue(s2.recs[sid].lock) && s2.recs[sid].lock.holder == s.recs[sid].lock.holder
  {
    var sid, who := s.tasks[t].sid, Asker(t, s.tasks[t].kind);
    assert LockOk(s, sid);
    KeepsShapeQueue(s, ETimesOut(t));
    CancelledStaysPut(s.recs[sid].lock, who);
    CancelKeeps(s.recs[sid].lock, who);
    GivesUpWaiting(TimesOut(s, t), t);
  }

  lemma GivesUpWaiting(s: State, t: Task)
    requires Shape(s) && Enabled(s, EGivesUp(t)) && Good(s.recs[s.tasks[t].sid].lock)
    ensures var s', who, sid := GivesUp(s, t), Asker(t, s.tasks[t].kind), s.tasks[t].sid;
      s'.tasks[t] == Ended && who !in Queue(s'.recs[sid].lock) && s'.recs[sid].lock.holder == s.recs[sid].lock.holder
  {
    AbandonKeeps(s.recs[s.tasks[t].sid].lock, Asker(t, s.tasks[t].kind));
  }
}
