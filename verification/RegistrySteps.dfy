/** Every atomic segment keeps the invariant of the session registry, so every run does. */
module RegistrySteps {
  import opened Common
  import opened AsyncLock
  import opened HttpErrors
  import opened Registry
  import opened RegistryInv

  lemma KeepsTick(s: State, dt: real)
    requires Inv(s) && dt >= 0.0
    ensures Inv(Apply(s, Tick(dt)))
  {
    var s' := Apply(s, Tick(dt));
    KeepsShape(s, Tick(dt));
    ClaimsStep(s, s', Reaper, |s.recs|);
    LocksSame(s, s');
    EnginesStep(s, s');
    TombsFrame(s, s');
    forall i | 0 <= i < |s.reapLog| ensures SightingOk(s', s.reapLog[i]) {
      assert SightingOk(s, s.reapLog[i]);
    }
  }

  // ---- create ------------------------------------------------------------------------

  /** A task that is new, or was suspended in `create`, is away from every lock. */
  lemma AwayFromLocks(s: State, t: Task)
    requires t >= |s.tasks| || s.tasks[t].EvictFirst? || s.tasks[t].Launching? || s.tasks[t].EvictSecond?
      || s.tasks[t].Rejecting? || s.tasks[t].Created? || s.tasks[t].Failed? || s.tasks[t].Got? || s.tasks[t].Purging?
      || s.tasks[t].Ended?
    ensures forall x: Sid, b :: PhaseOf(s, Request(t, b), x) == Away
  {
  }

  lemma CarriedIsNotRegistered(s: State, sid: Sid)
    requires EnginesDistinct(s) && sid < |s.recs|
    ensures forall t: Task :: t < |s.tasks| && s.tasks[t].EvictSecond? ==> s.tasks[t].eng != s.recs[sid].eng
  {
    forall t: Task | t < |s.tasks| && s.tasks[t].EvictSecond? ensures s.tasks[t].eng != s.recs[sid].eng {
      assert Carries(s, t, s.tasks[t].eng);
    }
  }

  lemma EnginesCreateCall(s: State, requested: Option<int>)
    requires Shape(s) && Engines(s) && Shape(CreateCall(s, requested))
    ensures Engines(CreateCall(s, requested))
  {
    var s', t := CreateCall(s, requested), |s.tasks|;
    if s'.tasks[t].EvictFirst? {
      EnginesFirstEviction(s, requested, s'.tasks[t].victim);
    } else {
      EnginesStep(s, s');
    }
  }

  lemma EnginesFirstEviction(s: State, requested: Option<int>, v: Sid)
    requires Shape(s) && Engines(s) && v < |s.recs| && !s.recs[v].closing
    requires Shape(Spawn(BeginClose(s, v), EvictFirst(v, requested)))
    ensures Engines(Spawn(BeginClose(s, v), EvictFirst(v, requested)))
  {
    CarriedIsNotRegistered(s, v);
    EnginesStep(s, Spawn(BeginClose(s, v), EvictFirst(v, requested)));
  }

  lemma LocksCreateCall(s: State, requested: Option<int>)
    requires Shape(s) && Locks(s)
    ensures Locks(CreateCall(s, requested))
  {
    var s', t := CreateCall(s, requested), |s.tasks|;
    AwayFromLocks(s, t);
    AwayFromLocks(s', t);
    LocksBystander(s, s', t);
  }

  lemma ClaimsCreateCall(s: State, requested: Option<int>)
    requires Shape(s) && Claims(s) && Shape(CreateCall(s, requested))
    ensures Claims(CreateCall(s, requested))
  {
    var s', t := CreateCall(s, requested), |s.tasks|;
    var v := if s'.tasks[t].EvictFirst? then s'.tasks[t].victim else |s.recs|;
    ClaimsStep(s, s', Request(t, true), v);
  }

  lemma PastCreateCall(s: State, requested: Option<int>)
    requires Shape(s) && Tombs(s) && Clocks(s) && Shape(CreateCall(s, requested))
    ensures Tombs(CreateCall(s, requested)) && Clocks(CreateCall(s, requested))
  {
    TombsFrame(s, CreateCall(s, requested));
    ClocksStep(s, CreateCall(s, requested));
  }

  lemma KeepsCreateCall(s: State, requested: Option<int>)
    requires Inv(s)
    ensures Inv(CreateCall(s, requested))
  {
    KeepsShapeCreateCall(s, requested);
    LocksCreateCall(s, requested);
    ClaimsCreateCall(s, requested);
    EnginesCreateCall(s, requested);
    PastCreateCall(s, requested);
    BooksCreateCall(s, requested);
  }

  lemma BooksCreateCall(s: State, requested: Option<int>)
    requires Books(s)
    ensures Books(CreateCall(s, requested))
  {
  }

  lemma KeepsEvictFirstDone(s: State, t: Task)
    requires Inv(s) && Enabled(s, EEvictFirstDone(t))
    ensures Inv(EvictFirstDone(s, t))
  {
    KeepsShapeCreate(s, EEvictFirstDone(t));
    LocksEvictFirstDone(s, t);
    ClaimsStep(s, EvictFirstDone(s, t), Reaper, |s.recs|);
    EnginesEvictFirstDone(s, t);
    PastEvictFirstDone(s, t);
    BooksEvictFirstDone(s, t);
  }

  lemma LocksEvictFirstDone(s: State, t: Task)
    requires Shape(s) && Locks(s) && Enabled(s, EEvictFirstDone(t))
    ensures Locks(EvictFirstDone(s, t))
  {
    var s' := EvictFirstDone(s, t);
    AwayFromLocks(s, t);
    AwayFromLocks(s', t);
    LocksBystander(s, s', t);
  }

  lemma BooksEvictFirstDone(s: State, t: Task)
    requires Shape(s) && Books(s) && Enabled(s, EEvictFirstDone(t))
    ensures Books(EvictFirstDone(s, t))
  {
  }

  lemma EnginesEvictFirstDone(s: State, t: Task)
    requires Shape(s) && Engines(s) && Enabled(s, EEvictFirstDone(t)) && Shape(EvictFirstDone(s, t))
    ensures Engines(EvictFirstDone(s, t))
  {
    EnginesStep(s, EvictFirstDone(s, t));
  }

  lemma PastEvictFirstDone(s: State, t: Task)
    requires Shape(s) && Claims(s) && Tombs(s) && Clocks(s) && Enabled(s, EEvictFirstDone(t))
    requires Shape(EvictFirstDone(s, t))
    ensures Tombs(EvictFirstDone(s, t)) && Clocks(EvictFirstDone(s, t))
  {
    assert ClaimedBy(s, Request(t, true), s.tasks[t].victim);
    TombsFrame(s, EvictFirstDone(s, t));
    ClocksStep(s, EvictFirstDone(s, t));
  }

  lemma LaunchedDistinct(s: State, t: Task)
    requires Inv(s) && Enabled(s, ELaunchDone(t)) && |s.live| >= s.cfg.maxSessions
    ensures EnginesDistinct(LaunchDone(s, t))
  {
    var s', eng := LaunchDone(s, t), s.nextEng;
    forall u: Task, e: Eng | Carries(s', u, e) ensures (u == t && e == eng) || (u != t && e < eng && Carries(s, u, e)) {
      if u != t {
        assert PcShape(s.tasks[u], |s.recs|, s.nextEng);
      }
    }
    assert forall i :: 0 <= i < |s.recs| ==> s'.recs[i].eng == s.recs[i].eng < eng;
  }

  lemma LaunchedNoneLost(s: State, t: Task)
    requires Inv(s) && Enabled(s, ELaunchDone(t)) && |s.live| >= s.cfg.maxSessions
    ensures NoneLost(LaunchDone(s, t))
  {
    var s', eng := LaunchDone(s, t), s.nextEng;
    forall e: Eng | e < s'.nextEng && e !in s'.closed ensures Tended(s', e) {
      if e == eng {
        assert Carries(s', t, e);
      } else if u: Task :| Carries(s, u, e) && s.tasks[u].EvictSecond? {
        assert Carries(s', u, e);
      } else {
        assert Tended(s, e);
        var sid: Sid :| Registered(s, sid, e);
        assert Registered(s', sid, e);
      }
    }
  }

  /** At capacity the new engine session stays with its create, or is closed at once. */
  lemma EnginesLaunched(s: State, t: Task)
    requires Inv(s) && Enabled(s, ELaunchDone(t)) && |s.live| >= s.cfg.maxSessions
    requires Shape(LaunchDone(s, t))
    ensures Engines(LaunchDone(s, t))
  {
    var s' := LaunchDone(s, t);
    LaunchedDistinct(s, t);
    LaunchedNoneLost(s, t);
    if s'.tasks[t].EvictSecond? {
      CarriedIsNotRegistered(s, s'.tasks[t].victim);
    }
    LaunchedClosedFirst(s, t);
  }

  lemma LaunchedClosedFirst(s: State, t: Task)
    requires Shape(s) && ClosedFirst(s) && Enabled(s, ELaunchDone(t)) && |s.live| >= s.cfg.maxSessions
    requires Shape(LaunchDone(s, t))
    ensures ClosedFirst(LaunchDone(s, t))
  {
  }

  lemma KeepsLaunchInsert(s: State, t: Task)
    requires Inv(s) && Enabled(s, ELaunchDone(t)) && |s.live| < s.cfg.maxSessions
    ensures Inv(LaunchDone(s, t))
  {
    var s' := LaunchDone(s, t);
    KeepsShapeLaunchDone(s, t);
    AwayFromLocks(s, t);
    AwayFromLocks(s', t);
    LocksBystander(s, s', t);
    ClaimsStep(s, s', Reaper, |s.recs|);
    PastLaunched(s, t);
    EnginesInsert(s, s', s.tasks[t].requested, s.nextEng, t, s'.tasks[t]);
  }

  lemma PastLaunched(s: State, t: Task)
    requires Shape(s) && Tombs(s) && Clocks(s) && Enabled(s, ELaunchDone(t)) && Shape(LaunchDone(s, t))
    ensures Tombs(LaunchDone(s, t)) && Clocks(LaunchDone(s, t))
  {
    TombsFrame(s, LaunchDone(s, t));
    ClocksStep(s, LaunchDone(s, t));
  }

  lemma ClaimsLaunched(s: State, t: Task)
    requires Inv(s) && Enabled(s, ELaunchDone(t)) && |s.live| >= s.cfg.maxSessions && Shape(LaunchDone(s, t))
    ensures Claims(LaunchDone(s, t))
  {
    var s' := LaunchDone(s, t);
    ClaimsStep(s, s', Request(t, true), if s'.tasks[t].EvictSecond? then s'.tasks[t].victim else |s.recs|);
  }

  lemma KeepsLaunchClaim(s: State, t: Task)
    requires Inv(s) && Enabled(s, ELaunchDone(t)) && |s.live| >= s.cfg.maxSessions
    ensures Inv(LaunchDone(s, t))
  {
    var s' := LaunchDone(s, t);
    KeepsShapeLaunchDone(s, t);
    AwayFromLocks(s, t);
    AwayFromLocks(s', t);
    LocksBystander(s, s', t);
    ClaimsLaunched(s, t);
    PastLaunched(s, t);
    EnginesLaunched(s, t);
  }

  lemma KeepsTaskEnds(s: State, e: Event)
    requires Inv(s) && Enabled(s, e) && (e.ELaunchFailed? || e.ERejectDone?)
    ensures Inv(Apply(s, e))
  {
    var s', t := Apply(s, e), e.t;
    KeepsShape(s, e);
    AwayFromLocks(s, t);
    AwayFromLocks(s', t);
    LocksBystander(s, s', t);
    ClaimsStep(s, s', Reaper, |s.recs|);
    EnginesStep(s, s');
    TombsFrame(s, s');
    ClocksStep(s, s');
  }

  lemma BooksEvictSecondDone(s: State, t: Task)
    requires Inv(s) && Enabled(s, EEvictSecondDone(t))
    ensures Books(EvictSecondDone(s, t))
  {
  }

  lemma EnginesEvictSecondDone(s: State, t: Task)
    requires Inv(s) && Enabled(s, EEvictSecondDone(t)) && Shape(EvictSecondDone(s, t))
    ensures Engines(EvictSecondDone(s, t))
  {
    var s' := EvictSecondDone(s, t);
    assert Carries(s, t, s.tasks[t].eng);
    EnginesInsert(s, s', s.tasks[t].requested, s.tasks[t].eng, t, s'.tasks[t]);
  }

  lemma LocksEvictSecondDone(s: State, t: Task)
    requires Inv(s) && Enabled(s, EEvictSecondDone(t))
    ensures Locks(EvictSecondDone(s, t))
  {
    AwayFromLocks(s, t);
    AwayFromLocks(EvictSecondDone(s, t), t);
    LocksBystander(s, EvictSecondDone(s, t), t);
  }

  lemma ClaimsEvictSecondDone(s: State, t: Task)
    requires Inv(s) && Enabled(s, EEvictSecondDone(t)) && Shape(EvictSecondDone(s, t))
    ensures Claims(EvictSecondDone(s, t))
  {
    ClaimsStep(s, EvictSecondDone(s, t), Reaper, |s.recs|);
  }

  lemma KeepsEvictSecondDone(s: State, t: Task)
    requires Inv(s) && Enabled(s, EEvictSecondDone(t))
    ensures Inv(EvictSecondDone(s, t))
  {
    KeepsShapeCreate(s, EEvictSecondDone(t));
    BooksEvictSecondDone(s, t);
    EnginesEvictSecondDone(s, t);
    LocksEvictSecondDone(s, t);
    ClaimsEvictSecondDone(s, t);
    PastEvictSecondDone(s, t);
  }

  lemma PastEvictSecondDone(s: State, t: Task)
    requires Shape(s) && Claims(s) && Tombs(s) && Clocks(s) && Enabled(s, EEvictSecondDone(t))
    requires Shape(EvictSecondDone(s, t))
    ensures Tombs(EvictSecondDone(s, t)) && Clocks(EvictSecondDone(s, t))
  {
    assert ClaimedBy(s, Request(t, true), s.tasks[t].victim);
    TombsFrame(s, EvictSecondDone(s, t));
    ClocksStep(s, EvictSecondDone(s, t));
  }

  // ---- requests ----------------------------------------------------------------------

  lemma LocksCall(s: State, kind: Kind, sid: Sid)
    requires Inv(s)
    ensures Locks(Call(s, kind, sid))
  {
    var s', t := Call(s, kind, sid), |s.tasks|;
    AwayFromLocks(s, t);
    if s'.tasks[t].Ended? || s'.tasks[t].Got? {
      AwayFromLocks(s', t);
      LocksBystander(s, s', t);
    } else {
      var s1 := Spawn(s, Ended);
      AwayFromLocks(s1, t);
      OpenIsNotReaped(s, sid);
      LocksBystander(s, s1, t);
      LocksEnter(s1, t, kind, sid);
    }
  }

  lemma KeepsCall(s: State, kind: Kind, sid: Sid)
    requires Inv(s)
    ensures Inv(Call(s, kind, sid))
  {
    KeepsShapeCall(s, kind, sid);
    LocksCall(s, kind, sid);
    CallMovesLocksOnly(s, kind, sid);
    LockMoveRest(s, Call(s, kind, sid), |s.tasks|);
  }

  lemma CallMovesLocksOnly(s: State, kind: Kind, sid: Sid)
    requires Shape(s)
    ensures OnlyLocksMove(s, Call(s, kind, sid), |s.tasks|)
  {
  }

  /** Segments of a request that only move its task and its session's lock. */
  lemma KeepsLockMove(s: State, e: Event)
    requires Inv(s) && Enabled(s, e)
    requires e.EAcquireRuns? || e.EWaiterRuns? || e.ETimesOut? || e.EGivesUp?
    ensures Inv(Apply(s, e))
  {
    var s', t := Apply(s, e), e.t;
    KeepsShape(s, e);
    QueueMovesLocksOnly(s, e);
    match e {
      case EAcquireRuns(_) =>
        AwayFromLocks(s, t);
        LocksEnter(s, t, s.tasks[t].kind, s.tasks[t].sid);
      case EWaiterRuns(_) => LocksWaiterRuns(s, t);
      case ETimesOut(_) => LocksTimesOut(s, t);
      case EGivesUp(_) => LocksGivesUp(s, t);
    }
    LockMoveRest(s, s', t);
  }

  lemma QueueMovesLocksOnly(s: State, e: Event)
    requires Shape(s) && Enabled(s, e)
    requires e.EAcquireRuns? || e.EWaiterRuns? || e.ETimesOut? || e.EGivesUp?
    ensures OnlyLocksMove(s, Apply(s, e), e.t)
  {
  }

  ghost predicate OnlyLocksMove(s: State, s': State, t: Task) {
    && t < |s'.tasks| && |s.tasks| <= |s'.tasks|
    && (t < |s.tasks| ==> s.tasks[t].Got? || s.tasks[t].Waiting? || s.tasks[t].Body?)
    && |s'.recs| == |s.recs|
    && (forall i :: 0 <= i < |s.recs| ==> s'.recs[i] == s.recs[i].(lock := s'.recs[i].lock))
    && OthersStay(s, s', t)
    && ClosedBy(s'.tasks[t]).None? && !s'.tasks[t].Rejecting? && !s'.tasks[t].Created?
    && s' == s.(recs := s'.recs, tasks := s'.tasks)
  }

  lemma LockMoveRest(s: State, s': State, t: Task)
    requires Inv(s) && Shape(s') && OnlyLocksMove(s, s', t)
    ensures Claims(s') && Engines(s') && Tombs(s') && Clocks(s') && Books(s')
  {
    ClaimsStep(s, s', Reaper, |s.recs|);
    EnginesStep(s, s');
    TombsFrame(s, s');
    ClocksStep(s, s');
  }

  lemma EnginesBodyStarts(s: State, t: Task)
    requires Inv(s) && Enabled(s, EBodyStarts(t)) && Shape(BodyStarts(s, t))
    ensures Engines(BodyStarts(s, t))
  {
    CarriedIsNotRegistered(s, s.tasks[t].sid);
    EnginesStep(s, BodyStarts(s, t));
  }

  lemma KeepsBodyStarts(s: State, t: Task)
    requires Inv(s) && Enabled(s, EBodyStarts(t))
    ensures Inv(BodyStarts(s, t))
  {
    var s', sid := BodyStarts(s, t), s.tasks[t].sid;
    KeepsShapeBodyStarts(s, t);
    LocksBodyStarts(s, t);
    ClaimsStep(s, s', Reaper, |s.recs|);
    EnginesBodyStarts(s, t);
    TombsFrame(s, s');
    ClocksStep(s, s');
  }

  lemma KeepsLetGo(s: State, t: Task)
    requires Inv(s) && t < |s.tasks| && s.tasks[t].Body?
    ensures Inv(LetGo(s, t))
  {
    var s' := LetGo(s, t);
    ShapeGrows(s, s');
    LocksLetGo(s, t);
    LockMoveRest(s, s', t);
  }

  lemma KeepsAccountFor(s: State, sid: Sid, o: Outcome)
    requires Inv(s) && sid < |s.recs|
    ensures Inv(AccountFor(s, sid, o))
  {
    var s' := AccountFor(s, sid, o);
    ShapeGrows(s, s');
    LocksSame(s, s');
    ClaimsStep(s, s', Reaper, |s.recs|);
    EnginesStep(s, s');
    PastAccountFor(s, sid, o);
  }

  lemma PastAccountFor(s: State, sid: Sid, o: Outcome)
    requires Shape(s) && Tombs(s) && Clocks(s) && sid < |s.recs| && Shape(AccountFor(s, sid, o))
    ensures Tombs(AccountFor(s, sid, o)) && Clocks(AccountFor(s, sid, o))
  {
    TombsFrame(s, AccountFor(s, sid, o));
    ClocksStep(s, AccountFor(s, sid, o));
  }

  /** Popping a record that is hidden and closed, and counting it as deleted. */
  lemma KeepsPopDeleted(s: State, sid: Sid)
    requires Inv(s) && IsClosing(s, sid)
    ensures Inv(BumpDeleted(Pop(s, sid)))
  {
    var s' := BumpDeleted(Pop(s, sid));
    ShapeGrows(s, s');
    LocksSame(s, s');
    ClaimsStep(s, s', Reaper, |s.recs|);
    EnginesPopped(s, sid);
    TombsFrame(s, s');
    ClocksStep(s, s');
  }

  lemma EnginesPopped(s: State, sid: Sid)
    requires Shape(s) && Engines(s) && IsClosing(s, sid) && Shape(BumpDeleted(Pop(s, sid)))
    ensures Engines(BumpDeleted(Pop(s, sid)))
  {
    EnginesStep(s, BumpDeleted(Pop(s, sid)));
  }

  lemma KeepsBodyEnds(s: State, t: Task, o: Outcome)
    requires Inv(s) && Enabled(s, EBodyEnds(t, o))
    ensures Inv(BodyEnds(s, t, o))
  {
    var sid := s.tasks[t].sid;
    match s.tasks[t].kind
    case Action =>
      KeepsAccountFor(s, sid, o);
      KeepsLetGo(AccountFor(s, sid, o), t);
    case Delete =>
      assert ClosedBy(s.tasks[t]) == Some(sid);
      KeepsPopDeleted(s, sid);
      KeepsLetGo(BumpDeleted(Pop(s, sid)), t);
    case Probe => KeepsLetGo(s, t);
  }

  // ---- the operator's reset ------------------------------------------------------------

  lemma KeepsSpawnEnded(s: State)
    requires Inv(s)
    ensures Inv(Spawn(s, Ended))
  {
    var s', t := Spawn(s, Ended), |s.tasks|;
    ShapeGrows(s, s');
    AwayFromLocks(s, t);
    AwayFromLocks(s', t);
    LocksBystander(s, s', t);
    LockMoveRest(s, s', t);
  }

  lemma KeepsPurgeEnds(s: State, t: Task)
    requires Inv(s) && t < |s.tasks| && (s.tasks[t].Ended? || s.tasks[t].Purging?)
    ensures Inv(WithTask(s, t, Ended))
  {
    var s' := WithTask(s, t, Ended);
    ShapeGrows(s, s');
    AwayFromLocks(s, t);
    AwayFromLocks(s', t);
    LocksBystander(s, s', t);
    ClaimsStep(s, s', Reaper, |s.recs|);
    EnginesStep(s, s');
    TombsFrame(s, s');
    ClocksStep(s, s');
  }

  lemma KeepsPurgeNext(s: State, t: Task, todo: seq<Sid>)
    requires Inv(s) && t < |s.tasks| && Within(todo, |s.recs|) && (s.tasks[t].Ended? || s.tasks[t].Purging?)
    ensures Inv(PurgeNext(s, t, todo))
  {
    if |todo| == 0 {
      KeepsPurgeEnds(s, t);
    } else {
      var s' := PurgeNext(s, t, todo);
      ShapeGrows(s, s');
      AwayFromLocks(s, t);
      AwayFromLocks(s', t);
      LocksBystander(s, s', t);
      ClaimsStep(s, s', Reaper, |s.recs|);
      EnginesPurge(s, t, todo);
      TombsFrame(s, s');
      ClocksStep(s, s');
    }
  }

  lemma EnginesPurge(s: State, t: Task, todo: seq<Sid>)
    requires Shape(s) && Engines(s) && t < |s.tasks| && Within(todo, |s.recs|) && |todo| > 0
    requires (s.tasks[t].Ended? || s.tasks[t].Purging?) && Shape(PurgeNext(s, t, todo))
    ensures Engines(PurgeNext(s, t, todo))
  {
    CarriedIsNotRegistered(s, todo[0]);
    EnginesStep(s, PurgeNext(s, t, todo));
  }

  lemma KeepsReset(s: State, e: Event)
    requires Inv(s) && Enabled(s, e) && (e.EResetCall? || e.EPurgeDone?)
    ensures Inv(Apply(s, e))
  {
    if e.EResetCall? {
      KeepsSpawnEnded(s);
      KeepsPurgeNext(Spawn(s, Ended), |s.tasks|, Snapshot(s));
    } else {
      assert ClosedBy(s.tasks[e.t]) == Some(s.tasks[e.t].sid);
      KeepsPopDeleted(s, s.tasks[e.t].sid);
      KeepsPurgeNext(BumpDeleted(Pop(s, s.tasks[e.t].sid)), e.t, s.tasks[e.t].rest);
    }
  }

  // ---- the reaper ------------------------------------------------------------------------

  lemma KeepsClaim(s: State, passNow: real, sid: Sid, rest: seq<Sid>)
    requires Inv(s) && s.reaper.Asleep? && sid < |s.recs| && Within(rest, |s.recs|)
    requires Reapable(s, passNow, sid) && passNow <= s.now && Visitable(s, rest)
    ensures Inv(Claim(s, passNow, sid, rest))
  {
    var s' := Claim(s, passNow, sid, rest);
    OpenIsNotReaped(s, sid);
    LocksClaim(s, passNow, sid, rest);
    ClaimsStep(s, s', Reaper, sid);
    EnginesClaim(s, passNow, sid, rest);
    TombsFrame(s, s');
    ClocksClaim(s, passNow, sid, rest);
  }

  lemma EnginesClaim(s: State, passNow: real, sid: Sid, rest: seq<Sid>)
    requires Shape(s) && Engines(s) && s.reaper.Asleep? && sid < |s.recs|
    requires Shape(Claim(s, passNow, sid, rest)) && Reapable(s, passNow, sid)
    ensures Engines(Claim(s, passNow, sid, rest))
  {
    CarriedIsNotRegistered(s, sid);
    EnginesStep(s, Claim(s, passNow, sid, rest));
  }

  lemma KeepsRests(s: State)
    requires Inv(s)
    ensures Inv(s.(reaper := Asleep)) || !s.reaper.Sweeping?
  {
    if s.reaper.Sweeping? {
      var s' := s.(reaper := Asleep);
      ClaimsStep(s, s', Reaper, |s.recs|);
      LocksByReaper(s, s', |s.recs|);
      EnginesStep(s, s');
      TombsFrame(s, s');
      forall i | 0 <= i < |s.reapLog| ensures SightingOk(s', s.reapLog[i]) {
        assert SightingOk(s, s.reapLog[i]);
      }
    }
  }

  lemma KeepsDrop(s: State, sid: Sid, rest: seq<Sid>)
    requires Inv(s) && s.reaper.Asleep? && sid < |s.recs| && sid in s.live && Within(rest, |s.recs|)
    ensures Inv(Drop(s, sid, rest))
  {
    var s' := Drop(s, sid, rest);
    ClaimsStep(s, s', Reaper, |s.recs|);
    LocksByReaper(s, s', |s.recs|);
    CarriedIsNotRegistered(s, sid);
    EnginesStep(s, s');
    TombsFrame(s, s');
    ClocksDrop(s, sid, rest);
  }

  lemma KeepsBury(s: State)
    requires Inv(s) && s.reaper.Teardown?
    ensures Inv(Bury(s))
  {
    var s' := Bury(s);
    assert s'.reapLog[|s.reapLog|] == s.reaper.claim;
    assert Shape(s');
    assert IsClosing(s, s.reaper.claim.sid) by {
      assert ClaimedBy(s, Reaper, s.reaper.claim.sid);
    }
    LocksBury(s);
    ClaimsBury(s);
    EnginesStep(s, s');
    TombsBury(s);
    ClocksBury(s);
  }

  lemma KeepsReaperLocks(s: State)
    requires Inv(s) && Enabled(s, EReaperLocks)
    ensures Inv(ReaperLocks(s))
  {
    var s', sid := ReaperLocks(s), s.reaper.claim.sid;
    KeepsShape(s, EReaperLocks);
    LocksReaperLocks(s);
    ClaimsStep(s, s', Reaper, |s.recs|);
    assert ClaimedBy(s, Reaper, sid);
    CarriedIsNotRegistered(s, sid);
    EnginesStep(s, s');
    TombsFrame(s, s');
    ClocksReaperLocks(s);
  }

  lemma KeepsScan(s: State, passNow: real, todo: seq<Sid>)
    requires Inv(s) && s.reaper.Asleep? && Within(todo, |s.recs|) && passNow <= s.now && Visitable(s, todo)
    ensures Inv(Scan(s, passNow, todo))
  {
    var k := ScanCases(s, passNow, todo);
    if k < |todo| {
      KeepsClaim(s, passNow, todo[k], todo[k + 1..]);
    } else {
      assert s.(reaper := Asleep) == s;
    }
  }

  lemma KeepsSweep(s: State, todo: seq<Sid>)
    requires Inv(s) && s.reaper.Asleep? && Within(todo, |s.recs|)
    ensures Inv(Sweep(s, todo))
  {
    var k := SweepCases(s, todo);
    if k < |todo| {
      KeepsDrop(s, todo[k], todo[k + 1..]);
    } else {
      assert s.(reaper := Asleep) == s;
    }
  }

  lemma KeepsReap(s: State, e: Event)
    requires Inv(s) && Enabled(s, e) && IsReaper(e)
    ensures Inv(Apply(s, e))
  {
    match e
    case EPassStarts(alive) =>
      assert Visitable(s, Snapshot(s));
      KeepsScan(s, s.now, Snapshot(s));
      KeepsSweep(s, Snapshot(s));
    case EReaperLocks => KeepsReaperLocks(s);
    case EReapDone =>
      KeepsBury(s);
      assert s.recs[s.reaper.claim.sid].closing by {
        assert ClaimedBy(s, Reaper, s.reaper.claim.sid);
      }
      KeepsScan(Bury(s), s.reaper.passNow, s.reaper.rest);
    case ESweepDone =>
      KeepsRests(s);
      SweepFromAsleep(s, s.reaper.rest);
      KeepsSweep(s.(reaper := Asleep), s.reaper.rest);
    case _ =>
  }

  lemma {:induction false} SweepFromAsleep(s: State, todo: seq<Sid>)
    requires Within(todo, |s.recs|)
    ensures Sweep(s, todo) == Sweep(s.(reaper := Asleep), todo)
    decreases |todo|
  {
    if |todo| > 0 && todo[0] !in s.live {
      SweepFromAsleep(s, todo[1..]);
    }
  }

  // ---- the main result ---------------------------------------------------------------------

  /** Every atomic segment of every task keeps the invariant. */
  lemma KeepsInv(s: State, e: Event)
    requires Inv(s) && Enabled(s, e)
    ensures Inv(Apply(s, e))
  {
    match e
    case Tick(dt) => KeepsTick(s, dt);
    case ECreateCall(requested) => KeepsCreateCall(s, requested);
    case EEvictFirstDone(t) => KeepsEvictFirstDone(s, t);
    case ELaunchDone(t) =>
      if |s.live| < s.cfg.maxSessions {
        KeepsLaunchInsert(s, t);
      } else {
        KeepsLaunchClaim(s, t);
      }
    case ELaunchFailed(t) => KeepsTaskEnds(s, e);
    case ERejectDone(t) => KeepsTaskEnds(s, e);
    case EEvictSecondDone(t) => KeepsEvictSecondDone(s, t);
    case ECall(kind, sid) => KeepsCall(s, kind, sid);
    case EBodyStarts(t) => KeepsBodyStarts(s, t);
    case EBodyEnds(t, o) => KeepsBodyEnds(s, t, o);
    case EResetCall => KeepsReset(s, e);
    case EPurgeDone(_) => KeepsReset(s, e);
    case EPassStarts(_) => KeepsReap(s, e);
    case EReaperLocks => KeepsReap(s, e);
    case EReapDone => KeepsReap(s, e);
    case ESweepDone => KeepsReap(s, e);
    case _ => KeepsLockMove(s, e);
  }

  lemma {:induction false} RunKeepsInv(s: State, es: seq<Event>)
    requires Inv(s) && Legal(s, es)
    ensures Inv(Exec(s, es))
    decreases |es|
  {
    if |es| > 0 {
      KeepsInv(s, es[0]);
      RunKeepsInv(Apply(s, es[0]), es[1..]);
    }
  }

  lemma KeepsConfig(s: State, e: Event)
    requires Shape(s) && Enabled(s, e)
    ensures Apply(s, e).cfg == s.cfg
  {
    if IsReaper(e) {
      ReaperKeepsConfig(s, e);
    }
  }

  lemma ReaperKeepsConfig(s: State, e: Event)
    requires Shape(s) && Enabled(s, e) && IsReaper(e)
    ensures Apply(s, e).cfg == s.cfg
  {
    match e
    case EPassStarts(alive) =>
      var _ := ScanCases(s, s.now, Snapshot(s));
      var _ := SweepCases(s, Snapshot(s));
    case EReapDone => var _ := ScanCases(Bury(s), s.reaper.passNow, s.reaper.rest);
    case ESweepDone => var _ := SweepCases(s, s.reaper.rest);
    case _ =>
  }

  lemma {:induction false} RunKeepsConfig(s: State, es: seq<Event>)
    requires Legal(s, es)
    ensures Exec(s, es).cfg == s.cfg
    decreases |es|
  {
    if |es| > 0 {
      KeepsConfig(s, es[0]);
      RunKeepsConfig(Apply(s, es[0]), es[1..]);
    }
  }
}
