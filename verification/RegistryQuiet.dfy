/**
  Runs made of creates, actions, status probes and reaper passes over a live engine only.
  Without deletes, resets and mass drops nobody takes a record away from the task that
  claimed it, and every bound becomes exact.
*/
module RegistryQuiet {
  import opened Common
  import opened AsyncLock
  import opened HttpErrors
  import opened Registry
  import opened RegistryInv
  import opened RegistrySteps

  predicate QuietEvent(e: Event) {
    match e
    case ECall(kind, _) => kind != Delete
    case EResetCall => false
    case EPassStarts(alive) => alive
    case _ => true
  }

  predicate QuietPc(pc: Pc) {
    match pc
    case Got(kind, _) => kind != Delete
    case Waiting(kind, _) => kind != Delete
    case Holding(kind, _) => kind != Delete
    case Body(kind, _) => kind != Delete
    case Purging(_, _) => false
    case _ => true
  }

  ghost predicate Quiet(s: State) {
    && (forall t :: 0 <= t < |s.tasks| ==> QuietPc(s.tasks[t]))
    && !s.reaper.Sweeping?
    && s.totals.deleted == 0 && s.ledger == Ledger(0, 0, 0)
    && (forall who, sid: Sid :: ClaimedBy(s, who, sid) ==> sid in s.live)
    && (forall sid: Sid :: sid in s.live && sid < |s.recs| && s.recs[sid].closing ==> Claimed(s, sid))
  }

  ghost predicate Claimed(s: State, sid: Sid) {
    exists who :: ClaimedBy(s, who, sid)
  }

  /** A step that pops nothing and makes at most one claim, on a registered record. */
  lemma QuietStep(s: State, s': State, who0: Who, v: Sid)
    requires Shape(s) && Shape(s') && Quiet(s)
    requires forall t :: 0 <= t < |s'.tasks| ==> QuietPc(s'.tasks[t])
    requires !s'.reaper.Sweeping? && s'.totals.deleted == 0 && s'.ledger == s.ledger
    requires s.live <= s'.live && forall x: Sid :: x in s'.live ==> x in s.live || x >= |s.recs|
    requires forall who, sid: Sid :: ClaimedBy(s', who, sid) ==> ClaimedBy(s, who, sid) || (sid == v && v in s.live)
    requires forall who, sid: Sid :: ClaimedBy(s, who, sid) ==> ClaimedBy(s', who, sid)
    requires |s.recs| <= |s'.recs|
    requires forall i: Sid :: i < |s.recs| && s'.recs[i].closing ==>
               s.recs[i].closing || (i == v && ClaimedBy(s', who0, v))
    requires forall i: Sid :: |s.recs| <= i < |s'.recs| ==> !s'.recs[i].closing
    ensures Quiet(s')
  {
  }

  /** A claimant pops its record: it was still registered, and nobody else claims it. */
  lemma QuietPop(s: State, s': State, who0: Who, v: Sid)
    requires Shape(s) && Shape(s') && Quiet(s) && Claims(s) && ClaimedBy(s, who0, v)
    requires forall t :: 0 <= t < |s'.tasks| ==> QuietPc(s'.tasks[t])
    requires !s'.reaper.Sweeping? && s'.totals.deleted == 0 && s'.ledger == s.ledger
    requires forall x: Sid :: x < |s.recs| ==> (x in s'.live <==> x in s.live && x != v)
    requires forall who, sid: Sid :: ClaimedBy(s', who, sid) <==> ClaimedBy(s, who, sid) && who != who0
    requires |s.recs| <= |s'.recs|
    requires forall i: Sid :: i < |s.recs| && s'.recs[i].closing ==> s.recs[i].closing
    requires forall i: Sid :: |s.recs| <= i < |s'.recs| ==> !s'.recs[i].closing
    ensures Quiet(s')
  {
  }

  lemma QuietEvictFirstDone(s: State, t: Task)
    requires Shape(s) && Claims(s) && Quiet(s) && Enabled(s, EEvictFirstDone(t))
    ensures Quiet(EvictFirstDone(s, t))
  {
    KeepsShapeCreate(s, EEvictFirstDone(t));
    var v, who := s.tasks[t].victim, Request(t, true);
    assert ClaimedBy(s, who, v);
    QuietPop(s, EvictFirstDone(s, t), who, v);
  }

  lemma QuietEvictSecondDone(s: State, t: Task)
    requires Shape(s) && Claims(s) && Quiet(s) && Enabled(s, EEvictSecondDone(t))
    ensures Quiet(EvictSecondDone(s, t))
  {
    KeepsShapeCreate(s, EEvictSecondDone(t));
    var v, who := s.tasks[t].victim, Request(t, true);
    assert ClaimedBy(s, who, v);
    QuietPop(s, EvictSecondDone(s, t), who, v);
  }

  lemma QuietCreateCall(s: State, requested: Option<int>)
    requires Shape(s) && Quiet(s)
    ensures Quiet(CreateCall(s, requested))
  {
    KeepsShapeCreateCall(s, requested);
    var s', t := CreateCall(s, requested), |s.tasks|;
    var v := if s'.tasks[t].EvictFirst? then s'.tasks[t].victim else |s.recs|;
    QuietStep(s, s', Request(t, true), v);
  }

  lemma QuietLaunchInsert(s: State, t: Task)
    requires Shape(s) && Quiet(s) && Enabled(s, ELaunchDone(t)) && |s.live| < s.cfg.maxSessions
    ensures Quiet(LaunchDone(s, t))
  {
    KeepsShapeLaunchDone(s, t);
    QuietStep(s, LaunchDone(s, t), Reaper, |s.recs|);
  }

  lemma QuietLaunchClaim(s: State, t: Task)
    requires Shape(s) && Quiet(s) && Enabled(s, ELaunchDone(t)) && |s.live| >= s.cfg.maxSessions
    ensures Quiet(LaunchDone(s, t))
  {
    KeepsShapeLaunchDone(s, t);
    var s' := LaunchDone(s, t);
    QuietStep(s, s', Request(t, true), if s'.tasks[t].EvictSecond? then s'.tasks[t].victim else |s.recs|);
  }

  /** A step that leaves registry, claims and flags alone. */
  lemma QuietBystander(s: State, s': State, t: Task)
    requires Shape(s) && Shape(s') && Quiet(s) && t < |s'.tasks| && |s.tasks| <= |s'.tasks| && OthersStay(s, s', t)
    requires QuietPc(s'.tasks[t]) && ClosedBy(s'.tasks[t]).None?
    requires t < |s.tasks| ==> ClosedBy(s.tasks[t]).None?
    requires s'.reaper == s.reaper && s'.live == s.live && s'.ledger == s.ledger
    requires s'.totals.deleted == s.totals.deleted
    requires |s'.recs| == |s.recs| && forall i :: 0 <= i < |s.recs| ==> s'.recs[i].closing == s.recs[i].closing
    ensures Quiet(s')
  {
    QuietStep(s, s', Reaper, |s.recs|);
  }

  lemma QuietTaskEnds(s: State, e: Event)
    requires Shape(s) && Quiet(s) && Enabled(s, e) && (e.ELaunchFailed? || e.ERejectDone?)
    ensures Quiet(Apply(s, e))
  {
    KeepsShapeCreate(s, e);
    QuietBystander(s, Apply(s, e), e.t);
  }

  lemma QuietCall(s: State, kind: Kind, sid: Sid)
    requires Shape(s) && Quiet(s) && kind != Delete
    ensures Quiet(Call(s, kind, sid))
  {
    KeepsShapeCall(s, kind, sid);
    QuietBystander(s, Call(s, kind, sid), |s.tasks|);
  }

  lemma QuietQueue(s: State, e: Event)
    requires Shape(s) && Quiet(s) && Enabled(s, e) && (e.EAcquireRuns? || e.EWaiterRuns? || e.ETimesOut? || e.EGivesUp?)
    ensures Quiet(Apply(s, e))
  {
    KeepsShapeQueue(s, e);
    assert QuietPc(s.tasks[e.t]);
    QuietBystander(s, Apply(s, e), e.t);
  }

  lemma QuietBodyStarts(s: State, t: Task)
    requires Shape(s) && Quiet(s) && Enabled(s, EBodyStarts(t))
    ensures Quiet(BodyStarts(s, t))
  {
    KeepsShapeBodyStarts(s, t);
    assert QuietPc(s.tasks[t]);
    QuietBystander(s, BodyStarts(s, t), t);
  }

  lemma QuietBodyEnds(s: State, t: Task, o: Outcome)
    requires Shape(s) && Quiet(s) && Enabled(s, EBodyEnds(t, o))
    ensures Quiet(BodyEnds(s, t, o))
  {
    KeepsShapeBodyEnds(s, t, o);
    assert QuietPc(s.tasks[t]);
    QuietBystander(s, BodyEnds(s, t, o), t);
  }

  lemma QuietTick(s: State, dt: real)
    requires Shape(s) && Quiet(s) && dt >= 0.0
    ensures Quiet(Apply(s, Tick(dt)))
  {
    QuietStep(s, s.(now := s.now + dt), Reaper, |s.recs|);
  }

  lemma QuietScan(s: State, passNow: real, todo: seq<Sid>)
    requires Inv(s) && Quiet(s) && s.reaper.Asleep? && Within(todo, |s.recs|) && Visitable(s, todo)
    ensures Quiet(Scan(s, passNow, todo))
  {
    var k := ScanCases(s, passNow, todo);
    if k < |todo| {
      ScanShape(s, passNow, todo);
      QuietStep(s, Claim(s, passNow, todo[k], todo[k + 1..]), Reaper, todo[k]);
    } else {
      assert s.(reaper := Asleep) == s;
    }
  }

  lemma QuietReap(s: State, e: Event)
    requires Inv(s) && Quiet(s) && Enabled(s, e) && QuietEvent(e) && IsReaper(e)
    ensures Quiet(Apply(s, e))
  {
    match e
    case EPassStarts(alive) => QuietScan(s, s.now, Snapshot(s));
    case EReaperLocks => QuietReaperLocks(s);
    case EReapDone =>
      KeepsBury(s);
      QuietBury(s);
      QuietScan(Bury(s), s.reaper.passNow, s.reaper.rest);
    case _ =>
  }

  lemma QuietReaperLocks(s: State)
    requires Shape(s) && Quiet(s) && Enabled(s, EReaperLocks)
    ensures Quiet(Apply(s, EReaperLocks))
  {
    KeepsShape(s, EReaperLocks);
    QuietStep(s, Apply(s, EReaperLocks), Reaper, |s.recs|);
  }

  lemma QuietBury(s: State)
    requires Shape(s) && Claims(s) && Quiet(s) && Enabled(s, EReapDone) && Shape(Bury(s))
    ensures Quiet(Bury(s))
  {
    assert ClaimedBy(s, Reaper, s.reaper.claim.sid);
    QuietPop(s, Bury(s), Reaper, s.reaper.claim.sid);
  }

  lemma QuietCreate(s: State, e: Event)
    requires Inv(s) && Quiet(s) && Enabled(s, e)
    requires e.ECreateCall? || e.EEvictFirstDone? || e.ELaunchDone? || e.EEvictSecondDone?
          || e.ELaunchFailed? || e.ERejectDone?
    ensures Quiet(Apply(s, e))
  {
    match e
    case ECreateCall(requested) => QuietCreateCall(s, requested);
    case EEvictFirstDone(t) => QuietEvictFirstDone(s, t);
    case ELaunchDone(t) =>
      if |s.live| < s.cfg.maxSessions {
        QuietLaunchInsert(s, t);
      } else {
        QuietLaunchClaim(s, t);
      }
    case EEvictSecondDone(t) => QuietEvictSecondDone(s, t);
    case ELaunchFailed(_) => QuietTaskEnds(s, e);
    case ERejectDone(_) => QuietTaskEnds(s, e);
  }

  lemma QuietUse(s: State, e: Event)
    requires Inv(s) && Quiet(s) && Enabled(s, e) && QuietEvent(e)
    requires e.Tick? || e.ECall? || e.EBodyStarts? || e.EBodyEnds?
    ensures Quiet(Apply(s, e))
  {
    match e
    case Tick(dt) => QuietTick(s, dt);
    case ECall(kind, sid) => QuietCall(s, kind, sid);
    case EBodyStarts(t) => QuietBodyStarts(s, t);
    case EBodyEnds(t, o) => QuietBodyEnds(s, t, o);
  }

  lemma NoPurge(s: State, t: Task)
    requires Shape(s) && Quiet(s) && t < |s.tasks|
    ensures !s.tasks[t].Purging?
  {
  }

  lemma KeepsQuiet(s: State, e: Event)
    requires Inv(s) && Quiet(s) && Enabled(s, e) && QuietEvent(e)
    ensures Quiet(Apply(s, e))
  {
    if IsReaper(e) {
      QuietReap(s, e);
    } else if e.EAcquireRuns? || e.EWaiterRuns? || e.ETimesOut? || e.EGivesUp? {
      QuietQueue(s, e);
    } else if e.Tick? || e.ECall? || e.EBodyStarts? || e.EBodyEnds? {
      QuietUse(s, e);
    } else if e.EPurgeDone? {
      NoPurge(s, e.t);
    } else {
      QuietCreate(s, e);
    }
  }

  lemma {:induction false} RunKeepsQuiet(s: State, es: seq<Event>)
    requires Inv(s) && Quiet(s) && Legal(s, es) && forall e :: e in es ==> QuietEvent(e)
    ensures Inv(Exec(s, es)) && Quiet(Exec(s, es))
    decreases |es|
  {
    if |es| > 0 {
      assert es[0] in es;
      KeepsInv(s, es[0]);
      KeepsQuiet(s, es[0]);
      RunKeepsQuiet(Apply(s, es[0]), es[1..]);
    }
  }

  /**
    In a quiet run the cap is never exceeded, every pop finds its record, and the
    counters alone account for every session ever created.
  */
  lemma QuietRunsAreExact(cfg: Config, now: real, es: seq<Event>)
    requires Legal(Init(cfg, now), es) && forall e :: e in es ==> QuietEvent(e)
    ensures var s := Exec(Init(cfg, now), es);
      && |s.live| <= cfg.maxSessions
      && s.totals.created == |s.live| + s.totals.reaped + s.totals.evicted
      && (forall sid: Sid :: sid < |s.recs| ==> (s.recs[sid].closing && sid in s.live <==> Claimed(s, sid)))
  {
    InitInv(cfg, now);
    RunKeepsQuiet(Init(cfg, now), es);
    RunKeepsConfig(Init(cfg, now), es);
    var s := Exec(Init(cfg, now), es);
    forall sid: Sid | sid < |s.recs| && Claimed(s, sid) ensures s.recs[sid].closing && sid in s.live {
      var who :| ClaimedBy(s, who, sid);
    }
  }
}
