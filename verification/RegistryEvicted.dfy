/**
  What becomes of the sessions that creates evict: from the moment it is chosen, none of them
  is ever the reaper's.
*/
module RegistryEvicted {
  import opened Common
  import opened AsyncLock
  import opened HttpErrors
  import opened Registry
  import opened RegistryInv
  import opened RegistrySteps
  import opened RegistryTheorems
  import opened RegistryPolicy

  function AsSet(o: Option<Sid>): set<Sid> {
    if o.Some? then {o.value} else {}
  }

  /** The sessions whose eviction this create has finished and still remembers. */
  function Evicted(pc: Pc): set<Sid> {
    match pc
    case Launching(_, evicted, _) => AsSet(evicted)
    case EvictSecond(_, _, earlier, _, _) => AsSet(earlier)
    case Created(_, reported, _) => AsSet(reported)
    case _ => {}
  }

  /** The session it is evicting now. */
  function Evicting(pc: Pc): set<Sid> {
    match pc
    case EvictFirst(victim, _) => {victim}
    case EvictSecond(victim, _, _, _, _) => {victim}
    case _ => {}
  }

  predicate IsEvicted(s: State, t: Task, v: Sid) {
    t < |s.tasks| && v in Evicted(s.tasks[t])
  }

  predicate IsVictim(s: State, t: Task, v: Sid) {
    t < |s.tasks| && (v in Evicting(s.tasks[t]) || v in Evicted(s.tasks[t]))
  }

  /** Hidden, and never the reaper's. */
  ghost predicate Spoken(s: State, v: Sid) {
    v < |s.recs| && s.recs[v].closing && !Reaped(s, v) && !ClaimedBy(s, Reaper, v)
  }

  ghost predicate Evictions(s: State) {
    && (forall t: Task, v: Sid :: IsVictim(s, t, v) ==> Spoken(s, v))
    && (forall t: Task, v: Sid :: IsEvicted(s, t, v) ==> v !in s.live)
    && (forall t: Task, v: Sid :: IsEvicted(s, t, v) && s.tasks[t].Created? ==> s.tasks[t].sid != v)
  }

  lemma OnlyReaperReaps(s: State, e: Event)
    requires Shape(s) && Enabled(s, e) && !IsReaper(e)
    ensures Apply(s, e).reapLog == s.reapLog
  {
  }

  lemma OnlyClaimsAreReaped(s: State, e: Event, v: Sid)
    requires Shape(s) && Enabled(s, e) && Reaped(Apply(s, e), v)
    ensures Reaped(s, v) || ClaimedBy(s, Reaper, v)
  {
    if !IsReaper(e) {
      OnlyReaperReaps(s, e);
    } else if e.EPassStarts? {
      var _ := ScanCases(s, s.now, Snapshot(s));
      var _ := SweepCases(s, Snapshot(s));
    } else if e.EReapDone? {
      var _ := ScanCases(Bury(s), s.reaper.passNow, s.reaper.rest);
    } else if e.ESweepDone? {
      var _ := SweepCases(s, s.reaper.rest);
    }
  }

  lemma StaysSpoken(s: State, e: Event, v: Sid)
    requires Inv(s) && Enabled(s, e) && Spoken(s, v)
    ensures Spoken(Apply(s, e), v)
  {
    StepIsLater(s, e);
    if Reaped(Apply(s, e), v) {
      OnlyClaimsAreReaped(s, e, v);
    }
    if ClaimedBy(Apply(s, e), Reaper, v) {
      ReaperClaimIsSound(s, e, v);
    }
  }

  /** A session that an eviction has just taken was registered and nobody's. */
  lemma ClaimIsSpoken(s: State, e: Event, t: Task, v: Sid)
    requires Inv(s) && Enabled(s, e)
    requires ClaimedBy(Apply(s, e), Request(t, true), v) && !ClaimedBy(s, Request(t, true), v)
    ensures Spoken(Apply(s, e), v)
  {
    KeepsInv(s, e);
    EvictionIsSound(s, e, t, v);
    if Reaped(Apply(s, e), v) {
      OnlyClaimsAreReaped(s, e, v);
    }
  }

  ghost predicate VictimsMove(s: State, s': State) {
    && (forall t: Task, v: Sid :: IsVictim(s', t, v) ==>
          IsVictim(s, t, v) || (ClaimedBy(s', Request(t, true), v) && !ClaimedBy(s, Request(t, true), v)))
    && (forall t: Task, v: Sid :: IsEvicted(s', t, v) ==>
          IsEvicted(s, t, v) || (IsVictim(s, t, v) && v !in s'.live))
    && (forall t: Task, v: Sid :: IsEvicted(s', t, v) && s'.tasks[t].Created? ==>
          (t < |s.tasks| && s'.tasks[t] == s.tasks[t]) || s'.tasks[t].sid == |s.recs|)
  }

  ghost predicate OnlyMoves(s: State, s': State, t: Task) {
    && |s.tasks| <= |s'.tasks| <= |s.tasks| + 1 && t < |s'.tasks|
    && forall u: Task :: u < |s'.tasks| && u != t ==> u < |s.tasks| && s'.tasks[u] == s.tasks[u]
  }

  lemma EvictionStarts(s: State, s': State, t: Task)
    requires OnlyMoves(s, s', t) && !s'.tasks[t].Created?
    requires Evicted(s'.tasks[t]) == if t < |s.tasks| then Evicted(s.tasks[t]) else {}
    requires t < |s.tasks| ==> Evicting(s.tasks[t]) == {}
    ensures VictimsMove(s, s')
  {
  }

  lemma EvictionEnds(s: State, s': State, t: Task)
    requires OnlyMoves(s, s', t) && t < |s.tasks| && Evicting(s'.tasks[t]) == {}
    requires forall v: Sid :: v in Evicting(s.tasks[t]) ==> v !in s'.live
    requires Evicted(s'.tasks[t]) <= Evicted(s.tasks[t]) + Evicting(s.tasks[t])
    requires s'.tasks[t].Created? ==> s'.tasks[t].sid == |s.recs|
    ensures VictimsMove(s, s')
  {
  }

  /** A task that moves to where no create remembers an eviction. */
  lemma OutsiderMoves(s: State, s': State, t: Task)
    requires OnlyMoves(s, s', t) && Evicted(s'.tasks[t]) == {} && Evicting(s'.tasks[t]) == {}
    ensures VictimsMove(s, s')
  {
  }

  lemma LaunchMoves(s: State, t: Task)
    requires Shape(s) && Enabled(s, ELaunchDone(t))
    ensures VictimsMove(s, LaunchDone(s, t))
  {
    var s1 := s.(nextEng := s.nextEng + 1);
    SettleMoves(s1, t, s.tasks[t].requested, s.nextEng, s.tasks[t].evictions);
    MovesFromSame(s, s1, LaunchDone(s, t));
  }

  lemma SettleMoves(s: State, t: Task, requested: Option<int>, eng: Eng, evictions: nat)
    requires t < |s.tasks| && s.tasks[t].Launching?
    ensures VictimsMove(s, Settle(s, t, requested, s.tasks[t].evicted, eng, evictions))
  {
    if |s.live| < s.cfg.maxSessions {
      AdmitMoves(s, t, requested, eng, evictions);
    } else {
      SecondPassMoves(s, t, requested, eng, evictions);
    }
  }

  lemma MovesFromSame(s: State, s1: State, s': State)
    requires VictimsMove(s1, s') && s1.tasks == s.tasks && s1.recs == s.recs && s1.reaper == s.reaper
    ensures VictimsMove(s, s')
  {
  }

  lemma AdmitMoves(s: State, t: Task, requested: Option<int>, eng: Eng, evictions: nat)
    requires t < |s.tasks| && s.tasks[t].Launching?
    ensures VictimsMove(s, Admit(s, t, requested, eng, s.tasks[t].evicted, evictions))
  {
  }

  lemma SecondPassMoves(s: State, t: Task, requested: Option<int>, eng: Eng, evictions: nat)
    requires t < |s.tasks| && s.tasks[t].Launching?
    ensures VictimsMove(s, SecondPass(s, t, requested, s.tasks[t].evicted, eng, evictions))
  {
    var s' := SecondPass(s, t, requested, s.tasks[t].evicted, eng, evictions);
    if s'.tasks[t].EvictSecond? {
      EvictionStarts(s, s', t);
    } else {
      OutsiderMoves(s, s', t);
    }
  }

  lemma CreateMoves(s: State, e: Event)
    requires Shape(s) && Enabled(s, e)
    requires e.ECreateCall? || e.EEvictFirstDone? || e.EEvictSecondDone? || e.ELaunchFailed? || e.ERejectDone?
    ensures VictimsMove(s, Apply(s, e))
  {
    if e.ECreateCall? {
      EvictionStarts(s, Apply(s, e), |s.tasks|);
    } else if e.ELaunchFailed? || e.ERejectDone? {
      OutsiderMoves(s, Apply(s, e), e.t);
    } else {
      assert PcShape(s.tasks[e.t], |s.recs|, s.nextEng);
      EvictionEnds(s, Apply(s, e), e.t);
    }
  }

  lemma QueueMoves(s: State, e: Event)
    requires Shape(s) && Enabled(s, e) && (e.EAcquireRuns? || e.EWaiterRuns? || e.ETimesOut? || e.EGivesUp?)
    ensures VictimsMove(s, Apply(s, e))
  {
    if s.tasks[e.t] == Apply(s, e).tasks[e.t] {
      assert Apply(s, e).tasks == s.tasks;
    } else {
      OutsiderMoves(s, Apply(s, e), e.t);
    }
  }

  lemma RequestMoves(s: State, e: Event)
    requires Shape(s) && Enabled(s, e)
    requires e.ECall? || e.EBodyStarts?
    ensures VictimsMove(s, Apply(s, e))
  {
    OutsiderMoves(s, Apply(s, e), if e.ECall? then |s.tasks| else e.t);
  }

  lemma BodyEndMoves(s: State, t: Task, o: Outcome)
    requires Shape(s) && Enabled(s, EBodyEnds(t, o))
    ensures VictimsMove(s, BodyEnds(s, t, o))
  {
    OutsiderMoves(s, BodyEnds(s, t, o), t);
  }

  lemma ResetMoves(s: State, e: Event)
    requires Shape(s) && Enabled(s, e) && (e.EResetCall? || e.EPurgeDone?)
    ensures VictimsMove(s, Apply(s, e))
  {
    OutsiderMoves(s, Apply(s, e), if e.EResetCall? then |s.tasks| else e.t);
  }

  lemma AnyMoves(s: State, e: Event)
    requires Shape(s) && Enabled(s, e)
    ensures VictimsMove(s, Apply(s, e))
  {
    if IsReaper(e) {
      ReaperLeavesTasks(s, e);
    } else if e.ELaunchDone? {
      LaunchMoves(s, e.t);
    } else if e.ECall? || e.EBodyStarts? {
      RequestMoves(s, e);
    } else if e.EBodyEnds? {
      BodyEndMoves(s, e.t, e.outcome);
    } else if e.EResetCall? || e.EPurgeDone? {
      ResetMoves(s, e);
    } else if e.EAcquireRuns? || e.EWaiterRuns? || e.ETimesOut? || e.EGivesUp? {
      QueueMoves(s, e);
    } else if !e.Tick? {
      CreateMoves(s, e);
    }
  }

  lemma KeepsEvictions(s: State, e: Event)
    requires Inv(s) && Evictions(s) && Enabled(s, e)
    ensures Evictions(Apply(s, e))
  {
    var s' := Apply(s, e);
    AnyMoves(s, e);
    forall t: Task, v: Sid | IsVictim(s', t, v) ensures Spoken(s', v) {
      if IsVictim(s, t, v) {
        StaysSpoken(s, e, v);
      } else {
        ClaimIsSpoken(s, e, t, v);
      }
    }
    StepIsLater(s, e);
    EvictedStayAway(s, s');
  }

  lemma EvictedStayAway(s: State, s': State)
    requires Evictions(s) && VictimsMove(s, s') && Later(s, s')
    ensures forall t: Task, v: Sid :: IsEvicted(s', t, v) ==> v !in s'.live
    ensures forall t: Task, v: Sid :: IsEvicted(s', t, v) && s'.tasks[t].Created? ==> s'.tasks[t].sid != v
  {
    forall t: Task, v: Sid | IsEvicted(s', t, v) ensures v !in s'.live && v < |s.recs| {
      assert IsVictim(s, t, v);
      assert Spoken(s, v);
    }
    forall t: Task, v: Sid | IsEvicted(s', t, v) && s'.tasks[t].Created? ensures s'.tasks[t].sid != v {
      assert IsVictim(s, t, v) && Spoken(s, v);
      if t < |s.tasks| && s'.tasks[t] == s.tasks[t] {
        assert IsEvicted(s, t, v);
      }
    }
  }

  lemma {:induction false} RunKeepsEvictions(s: State, es: seq<Event>)
    requires Inv(s) && Evictions(s) && Legal(s, es)
    ensures Inv(Exec(s, es)) && Evictions(Exec(s, es))
    decreases |es|
  {
    if |es| > 0 {
      KeepsInv(s, es[0]);
      KeepsEvictions(s, es[0]);
      RunKeepsEvictions(Apply(s, es[0]), es[1..]);
    }
  }

  lemma ReachableEvictions(s: State)
    requires Reachable(s)
    ensures Inv(s) && Evictions(s)
  {
    var cfg, now, es :| Legal(Init(cfg, now), es) && Exec(Init(cfg, now), es) == s;
    InitInv(cfg, now);
    RunKeepsEvictions(Init(cfg, now), es);
  }
}
