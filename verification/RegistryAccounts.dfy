/**
  The public counters and what they count: when they add up, that each eviction is counted
  by one create, and how many engine sessions can be open.
*/
module RegistryAccounts {
  import opened Common
  import opened AsyncLock
  import opened HttpErrors
  import opened Registry
  import opened RegistryInv
  import opened RegistrySteps
  import opened RegistryTheorems

  // ---- when the counters add up ------------------------------------------------------------

  /** The record that this segment pops and counts has already left the registry. */
  predicate PopsNothing(s: State, e: Event)
    requires Shape(s) && Enabled(s, e)
  {
    match e
    case EEvictFirstDone(t) => s.tasks[t].victim !in s.live
    case EEvictSecondDone(t) => s.tasks[t].victim !in s.live
    case EBodyEnds(t, _) => s.tasks[t].kind == Delete && s.tasks[t].sid !in s.live
    case EPurgeDone(t) => s.tasks[t].sid !in s.live
    case EReapDone => s.reaper.claim.sid !in s.live
    case _ => false
  }

  /** By how much the counters of ways out exceed the sessions that have left. */
  function Surplus(s: State): int {
    |s.live| + s.totals.reaped + s.totals.deleted + s.totals.evicted + s.ledger.dropped - s.totals.created
  }

  lemma RequestPops(s: State, e: Event)
    requires Shape(s) && Enabled(s, e) && !IsReaper(e)
    ensures Apply(s, e).ledger.noopPops == s.ledger.noopPops + if PopsNothing(s, e) then 1 else 0
  {
  }

  lemma ReaperPops(s: State, e: Event)
    requires Shape(s) && Enabled(s, e) && IsReaper(e)
    ensures Apply(s, e).ledger.noopPops == s.ledger.noopPops + if PopsNothing(s, e) then 1 else 0
  {
    match e
    case EPassStarts(alive) =>
      var _ := ScanCases(s, s.now, Snapshot(s));
      var _ := SweepCases(s, Snapshot(s));
    case EReapDone => var _ := ScanCases(Bury(s), s.reaper.passNow, s.reaper.rest);
    case ESweepDone => var _ := SweepCases(s, s.reaper.rest);
    case _ =>
  }

  lemma SurplusIsNoopPops(s: State)
    requires Books(s)
    ensures Surplus(s) == s.ledger.noopPops
  {
  }

  /** A segment throws the counters out by one exactly if the record it is about to pop is gone. */
  lemma SurplusGrowsIff(s: State, e: Event)
    requires Inv(s) && Enabled(s, e)
    ensures Surplus(Apply(s, e)) == Surplus(s) + if PopsNothing(s, e) then 1 else 0
  {
    if IsReaper(e) {
      ReaperPops(s, e);
    } else {
      RequestPops(s, e);
    }
    KeepsInv(s, e);
    SurplusIsNoopPops(s);
    SurplusIsNoopPops(Apply(s, e));
  }

  /** Every pop of the run finds its record. */
  ghost predicate EveryPopFinds(s: State, es: seq<Event>)
    requires Legal(s, es)
    decreases |es|
  {
    |es| == 0 || (!PopsNothing(s, es[0]) && EveryPopFinds(Apply(s, es[0]), es[1..]))
  }

  lemma {:induction false} SurplusOfRun(s: State, es: seq<Event>)
    requires Inv(s) && Legal(s, es)
    ensures Surplus(Exec(s, es)) >= Surplus(s)
    ensures Surplus(Exec(s, es)) == Surplus(s) <==> EveryPopFinds(s, es)
    decreases |es|
  {
    if |es| > 0 {
      SurplusGrowsIff(s, es[0]);
      KeepsInv(s, es[0]);
      SurplusOfRun(Apply(s, es[0]), es[1..]);
    }
  }

  /** Over a whole run the public counters never fall short, and add up exactly if every pop found its record. */
  lemma RunIsExactIff(cfg: Config, now: real, es: seq<Event>)
    requires Legal(Init(cfg, now), es)
    ensures Surplus(Exec(Init(cfg, now), es)) >= 0
    ensures Surplus(Exec(Init(cfg, now), es)) == 0 <==> EveryPopFinds(Init(cfg, now), es)
  {
    InitInv(cfg, now);
    SurplusOfRun(Init(cfg, now), es);
  }

  // ---- who evicted what ----------------------------------------------------------------------

  /** The evictions a create has finished so far. */
  function EvictionsBy(pc: Pc): nat {
    match pc
    case Launching(_, _, n) => n
    case EvictSecond(_, _, _, _, n) => n
    case Rejecting(_, n) => n
    case Created(_, _, n) => n
    case Failed(n) => n
    case _ => 0
  }

  function EvictionsByAll(tasks: seq<Pc>): nat {
    if |tasks| == 0 then 0 else EvictionsByAll(tasks[..|tasks| - 1]) + EvictionsBy(tasks[|tasks| - 1])
  }

  /** What a create remembers agrees with what it has counted. */
  predicate Remembers(pc: Pc) {
    match pc
    case Launching(_, evicted, n) => n <= 1 && (evicted.Some? <==> n > 0)
    case EvictSecond(_, _, earlier, _, n) => n <= 1 && (earlier.Some? <==> n > 0)
    case Rejecting(_, n) => n <= 1
    case Created(_, reported, n) => n <= 2 && (reported.Some? <==> n > 0)
    case Failed(n) => n <= 1
    case _ => true
  }

  ghost predicate Tally(s: State) {
    s.totals.evicted == EvictionsByAll(s.tasks) && forall t :: 0 <= t < |s.tasks| ==> Remembers(s.tasks[t])
  }

  lemma {:induction false} OneMoves(tasks: seq<Pc>, t: nat, pc: Pc)
    requires t < |tasks|
    ensures EvictionsByAll(tasks[t := pc]) == EvictionsByAll(tasks) - EvictionsBy(tasks[t]) + EvictionsBy(pc)
  {
    var init := tasks[..|tasks| - 1];
    if t == |tasks| - 1 {
      assert tasks[t := pc][..|tasks| - 1] == init;
    } else {
      OneMoves(init, t, pc);
      assert tasks[t := pc][..|tasks| - 1] == init[t := pc];
    }
  }

  lemma OneStarts(tasks: seq<Pc>, pc: Pc)
    ensures EvictionsByAll(tasks + [pc]) == EvictionsByAll(tasks) + EvictionsBy(pc)
  {
    assert (tasks + [pc])[..|tasks|] == tasks;
  }

  /** Task t moves, or starts, and the counter rises by what it has evicted meanwhile. */
  lemma TallyStep(s: State, s': State, t: Task)
    requires Tally(s) && t < |s'.tasks| && Remembers(s'.tasks[t])
    requires s'.tasks == if t < |s.tasks| then s.tasks[t := s'.tasks[t]] else s.tasks + [s'.tasks[t]]
    requires s'.totals.evicted + (if t < |s.tasks| then EvictionsBy(s.tasks[t]) else 0)
          == s.totals.evicted + EvictionsBy(s'.tasks[t])
    ensures Tally(s')
  {
    if t < |s.tasks| {
      OneMoves(s.tasks, t, s'.tasks[t]);
    } else {
      OneStarts(s.tasks, s'.tasks[t]);
    }
  }

  lemma TallyCreate(s: State, e: Event)
    requires Shape(s) && Tally(s) && Enabled(s, e)
    requires e.ECreateCall? || e.EEvictFirstDone? || e.EEvictSecondDone? || e.ELaunchFailed? || e.ERejectDone?
    ensures Tally(Apply(s, e))
  {
    TallyStep(s, Apply(s, e), if e.ECreateCall? then |s.tasks| else e.t);
  }

  lemma TallyLaunchDone(s: State, t: Task)
    requires Shape(s) && Tally(s) && Enabled(s, ELaunchDone(t))
    ensures Tally(LaunchDone(s, t))
  {
    assert Remembers(s.tasks[t]);
    TallyStep(s, LaunchDone(s, t), t);
  }

  lemma TallyQueue(s: State, e: Event)
    requires Shape(s) && Tally(s) && Enabled(s, e)
    requires e.EAcquireRuns? || e.EWaiterRuns? || e.ETimesOut? || e.EGivesUp?
    ensures Tally(Apply(s, e))
  {
    TallyStep(s, Apply(s, e), e.t);
  }

  lemma TallyRequest(s: State, e: Event)
    requires Shape(s) && Tally(s) && Enabled(s, e)
    requires e.ECall? || e.EBodyStarts? || e.EBodyEnds?
    ensures Tally(Apply(s, e))
  {
    TallyStep(s, Apply(s, e), if e.ECall? then |s.tasks| else e.t);
  }

  lemma TallyReset(s: State, e: Event)
    requires Shape(s) && Tally(s) && Enabled(s, e) && (e.EResetCall? || e.EPurgeDone?)
    ensures Tally(Apply(s, e))
  {
    TallyStep(s, Apply(s, e), if e.EResetCall? then |s.tasks| else e.t);
  }

  lemma TallyReaper(s: State, e: Event)
    requires Shape(s) && Tally(s) && Enabled(s, e) && IsReaper(e)
    ensures Tally(Apply(s, e))
  {
    match e
    case EPassStarts(alive) =>
      var _ := ScanCases(s, s.now, Snapshot(s));
      var _ := SweepCases(s, Snapshot(s));
    case EReapDone => var _ := ScanCases(Bury(s), s.reaper.passNow, s.reaper.rest);
    case ESweepDone => var _ := SweepCases(s, s.reaper.rest);
    case _ =>
  }

  lemma KeepsTally(s: State, e: Event)
    requires Shape(s) && Tally(s) && Enabled(s, e)
    ensures Tally(Apply(s, e))
  {
    if IsReaper(e) {
      TallyReaper(s, e);
    } else if e.ELaunchDone? {
      TallyLaunchDone(s, e.t);
    } else if e.EAcquireRuns? || e.EWaiterRuns? || e.ETimesOut? || e.EGivesUp? {
      TallyQueue(s, e);
    } else if e.ECall? || e.EBodyStarts? || e.EBodyEnds? {
      TallyRequest(s, e);
    } else if e.EResetCall? || e.EPurgeDone? {
      TallyReset(s, e);
    } else if !e.Tick? {
      TallyCreate(s, e);
    }
  }

  lemma {:induction false} RunKeepsTally(s: State, es: seq<Event>)
    requires Legal(s, es) && Shape(s) && Tally(s)
    ensures Tally(Exec(s, es))
    decreases |es|
  {
    if |es| > 0 {
      KeepsTally(s, es[0]);
      KeepsShape(s, es[0]);
      RunKeepsTally(Apply(s, es[0]), es[1..]);
    }
  }

  /**
    The eviction counter is the sum of what the creates evicted, failed ones included.  None
    evicts more than two sessions, none that failed more than one, and a create that succeeded
    reports a session exactly if it evicted one.
  */
  lemma EveryEvictionIsACreates(s: State)
    requires Reachable(s)
    ensures s.totals.evicted == EvictionsByAll(s.tasks)
    ensures forall t :: 0 <= t < |s.tasks| ==> EvictionsBy(s.tasks[t]) <= if s.tasks[t].Failed? then 1 else 2
    ensures forall t :: 0 <= t < |s.tasks| && s.tasks[t].Created? ==>
              (s.tasks[t].reported.Some? <==> EvictionsBy(s.tasks[t]) > 0)
  {
    var cfg, now, es :| Legal(Init(cfg, now), es) && Exec(Init(cfg, now), es) == s;
    RunKeepsTally(Init(cfg, now), es);
    assert forall t :: 0 <= t < |s.tasks| ==> Remembers(s.tasks[t]);
  }

  // ---- how many engine sessions are open -------------------------------------------------------

  function OpenEngines(s: State): set<Eng> {
    set eng: Eng | eng < s.nextEng && eng !in s.closed
  }

  /** The creates that hold an engine session while they make room for it. */
  function MakingRoom(s: State): set<Task> {
    set t: Task | t < |s.tasks| && s.tasks[t].EvictSecond?
  }

  lemma {:induction false} FewerValues(m: map<nat, nat>)
    ensures |m.Values| <= |m|
  {
    if |m| > 0 {
      var k :| k in m;
      var rest := m - {k};
      FewerValues(rest);
      forall v | v in m.Values ensures v in rest.Values + {m[k]} {
        var key :| key in m && m[key] == v;
        assert key != k ==> key in rest && rest[key] == v;
      }
      SubsetSize(m.Values, rest.Values + {m[k]});
    }
  }

  lemma {:induction false} NumbersBelow(n: nat) returns (all: set<Eng>)
    ensures |all| == n && forall x: Eng :: x in all <==> x < n
  {
    if n == 0 {
      all := {};
    } else {
      all := NumbersBelow(n - 1);
      all := all + {n - 1};
    }
  }

  /** Open engine sessions, and so browsers, are bounded by the registry and the creates making room. */
  lemma OpenEnginesAreBounded(s: State)
    requires Reachable(s)
    ensures |OpenEngines(s)| == s.nextEng - |s.closed|
    ensures |OpenEngines(s)| <= |s.live| + |MakingRoom(s)|
    ensures |OpenEngines(s)| <= s.cfg.maxSessions + s.ledger.lateInserts + |MakingRoom(s)|
  {
    ReachableInv(s);
    OpenEnginesCounted(s);
    OpenEnginesKept(s);
  }

  lemma OpenEnginesCounted(s: State)
    requires Shape(s)
    ensures |OpenEngines(s)| == s.nextEng - |s.closed|
  {
    var all := NumbersBelow(s.nextEng);
    assert OpenEngines(s) == all - s.closed && s.closed <= all;
  }

  /** Each of them is kept by a registered record or by a create making room, and by no other. */
  lemma OpenEnginesKept(s: State)
    requires Shape(s) && NoneLost(s)
    ensures |OpenEngines(s)| <= |s.live| + |MakingRoom(s)|
  {
    var ofRecords: map<nat, nat> := map sid: nat | sid in s.live && sid < |s.recs| :: s.recs[sid].eng;
    var ofCreates: map<nat, nat> := map t: nat | t in MakingRoom(s) :: s.tasks[t].eng;
    FewerValues(ofRecords);
    FewerValues(ofCreates);
    assert ofRecords.Keys == s.live && ofCreates.Keys == MakingRoom(s);
    assert |ofRecords| == |ofRecords.Keys| && |ofCreates| == |ofCreates.Keys|;
    forall eng | eng in OpenEngines(s) ensures eng in ofRecords.Values + ofCreates.Values {
      assert Tended(s, eng);
      if sid: Sid :| Registered(s, sid, eng) {
        assert ofRecords[sid] == eng;
      } else {
        var t: Task :| Carries(s, t, eng) && s.tasks[t].EvictSecond?;
        assert ofCreates[t] == eng;
      }
    }
    SubsetSize(OpenEngines(s), ofRecords.Values + ofCreates.Values);
  }
}
