/**
  The session registry and the browser engine together.

  A create that goes on to launch calls `addedsession` in the same segment, and the segment in
  which that call returns or fails is the one in which the create goes on.  A pass of the reaper
  asks this engine whether it is alive, and a browser is closed by its session only after the
  registry has called `close` on that session.
*/
module Service {
  import opened AsyncLock
  import R = Registry
  import opened RegistryInv
  import opened RegistrySteps
  import opened RegistryTheorems
  import opened RegistryPolicy
  import E = Engine

  /**
    `callers[u]` is the create that waits, or waited, for `addedsession` call u, and `makers[k]`
    is the call that made engine session k.
  */
  datatype State = State(reg: R.State, eng: E.State, callers: seq<R.Task>, makers: seq<E.Task>)

  datatype Event =
    | Manager(r: R.Event)
    | Begins(r: R.Event)
    | Pass
    | Calls(x: E.Event)
    | Disconnects(b: E.Browser)
    | Close(session: R.Eng)

  predicate Made(eng: E.State, call: E.Task) {
    call < |eng.tasks| && eng.tasks[call].Returned?
  }

  predicate Pending(eng: E.State, call: E.Task) {
    call < |eng.tasks| && !eng.tasks[call].Returned? && !eng.tasks[call].Failed?
  }

  /** A segment in which a create may go on to launch. */
  predicate MayLaunch(r: R.Event) {
    r.ECreateCall? || r.EEvictFirstDone?
  }

  predicate OnItsOwn(r: R.Event) {
    !MayLaunch(r) && !r.EPassStarts? && !r.ELaunchDone? && !r.ELaunchFailed?
  }

  predicate Enabled(s: State, e: Event)
    requires R.Shape(s.reg)
  {
    match e
    case Manager(r) => OnItsOwn(r) && R.Enabled(s.reg, r)
    case Begins(r) => MayLaunch(r) && R.Enabled(s.reg, r)
    case Pass => R.Enabled(s.reg, R.EPassStarts(s.eng.started))
    case Calls(x) => (x.ELockRuns? || x.EStartDone? || x.EStepDone?) && E.Enabled(s.eng, x) && HasCaller(s, x.t)
    case Disconnects(b) => E.Enabled(s.eng, E.EDisconnected(b))
    case Close(k) => k in s.reg.closed && k < |s.makers| && Made(s.eng, s.makers[k])
  }

  /** The create that made the call is still launching. */
  predicate HasCaller(s: State, call: E.Task) {
    call < |s.callers| && s.callers[call] < |s.reg.tasks| && s.reg.tasks[s.callers[call]].Launching?
  }

  /** The task that a segment of a create moves. */
  function Mover(reg: R.State, r: R.Event): R.Task
    requires MayLaunch(r)
  {
    if r.ECreateCall? then |reg.tasks| else r.t
  }

  /** The segment of a create, with the call of `addedsession` if it gets that far. */
  function Begin(s: State, r: R.Event): State
    requires R.Shape(s.reg) && MayLaunch(r) && R.Enabled(s.reg, r)
  {
    var s1, t := s.(reg := R.Apply(s.reg, r)), Mover(s.reg, r);
    if s1.reg.tasks[t].Launching? then s1.(eng := E.NewSession(s.eng), callers := s.callers + [t]) else s1
  }

  /** A call that has returned, or failed, resumes its create in the same segment. */
  function Resumed(s: State, call: E.Task): State
    requires R.Shape(s.reg) && HasCaller(s, call)
  {
    if Made(s.eng, call)
    then s.(reg := R.Apply(s.reg, R.ELaunchDone(s.callers[call])), makers := s.makers + [call])
    else if Pending(s.eng, call) then s
    else s.(reg := R.Apply(s.reg, R.ELaunchFailed(s.callers[call])))
  }

  function Apply(s: State, e: Event): State
    requires R.Shape(s.reg) && Enabled(s, e)
  {
    match e
    case Manager(r) => s.(reg := R.Apply(s.reg, r))
    case Begins(r) => Begin(s, r)
    case Pass => s.(reg := R.Apply(s.reg, R.EPassStarts(s.eng.started)))
    case Calls(x) => Resumed(s.(eng := E.Apply(s.eng, x)), x.t)
    case Disconnects(b) => s.(eng := E.Apply(s.eng, E.EDisconnected(b)))
    case Close(k) => s.(eng := E.SessionClose(s.eng, s.eng.tasks[s.makers[k]].browser))
  }

  ghost predicate Legal(s: State, es: seq<Event>)
    decreases |es|
  {
    |es| == 0 || (R.Shape(s.reg) && Enabled(s, es[0]) && Legal(Apply(s, es[0]), es[1..]))
  }

  ghost function Exec(s: State, es: seq<Event>): State
    requires Legal(s, es)
    decreases |es|
  {
    if |es| == 0 then s else Exec(Apply(s, es[0]), es[1..])
  }

  function Init(cfg: R.Config, now: real): State {
    State(R.Init(cfg, now), E.INIT, [], [])
  }

  // ---- the invariant of the whole ------------------------------------------------------

  /** Call u still has browser b, or has handed it over. */
  predicate Has(eng: E.State, u: E.Task, b: E.Browser) {
    u < |eng.tasks| && b in E.BrowserOf(eng.tasks[u]) && !eng.tasks[u].Reclaiming?
  }

  /** Each engine session was made by a call of its own. */
  ghost predicate MakersOk(s: State) {
    && |s.makers| == s.reg.nextEng
    && (forall i, j :: 0 <= i < j < |s.makers| ==> s.makers[i] != s.makers[j])
    && (forall k :: 0 <= k < |s.makers| ==> Made(s.eng, s.makers[k]))
  }

  predicate IsLaunching(reg: R.State, t: R.Task) {
    t < |reg.tasks| && reg.tasks[t].Launching?
  }

  predicate CalledBy(s: State, u: E.Task, t: R.Task) {
    u < |s.callers| && s.callers[u] == t
  }

  /** A pending call belongs to one launching create, and a launching create has one pending call. */
  ghost predicate CallersOk(s: State) {
    && |s.callers| == |s.eng.tasks|
    && (forall u: E.Task, t: R.Task :: Pending(s.eng, u) && CalledBy(s, u, t) ==> IsLaunching(s.reg, t))
    && (forall u: E.Task, v: E.Task, t: R.Task ::
          Pending(s.eng, u) && Pending(s.eng, v) && CalledBy(s, u, t) && CalledBy(s, v, t) ==> u == v)
    && (forall t: R.Task :: IsLaunching(s.reg, t) ==> exists u: E.Task :: Pending(s.eng, u) && CalledBy(s, u, t))
    && (forall u: E.Task :: Made(s.eng, u) ==> u in s.makers)
  }

  ghost predicate MadeAndClosed(s: State, u: E.Task) {
    exists k :: 0 <= k < |s.makers| && s.makers[k] == u && k in s.reg.closed
  }

  /** A browser that a call has or has handed over is marked only if its session was closed. */
  ghost predicate MarksOk(s: State) {
    && (forall b: E.Browser :: E.Mark(b) in s.eng.trace ==> b < s.eng.nextBrowser)
    && (forall u: E.Task, b: E.Browser :: Has(s.eng, u, b) && E.Mark(b) in s.eng.trace ==> MadeAndClosed(s, u))
  }

  ghost predicate NothingDropped(reg: R.State) {
    !reg.reaper.Sweeping? && reg.ledger.dropped == 0
  }

  ghost predicate WholeInv(s: State) {
    Inv(s.reg) && E.Inv(s.eng) && MakersOk(s) && MarksOk(s) && CallersOk(s) && NothingDropped(s.reg)
  }

  // ---- a segment of the registry alone ---------------------------------------------------

  /** The same creates are launching. */
  ghost predicate SameLaunches(a: R.State, b: R.State) {
    forall t: R.Task :: IsLaunching(b, t) <==> IsLaunching(a, t)
  }

  lemma QueueKeepsLaunches(s: R.State, e: R.Event)
    requires R.Shape(s) && R.Enabled(s, e)
    requires e.EAcquireRuns? || e.EWaiterRuns? || e.ETimesOut? || e.EGivesUp?
    ensures SameLaunches(s, R.Apply(s, e))
  {
  }

  lemma RequestKeepsLaunches(s: R.State, e: R.Event)
    requires R.Shape(s) && R.Enabled(s, e)
    requires e.ECall? || e.EBodyStarts? || e.EBodyEnds?
    ensures SameLaunches(s, R.Apply(s, e))
  {
  }

  lemma ResetKeepsLaunches(s: R.State, e: R.Event)
    requires R.Shape(s) && R.Enabled(s, e) && (e.EResetCall? || e.EPurgeDone?)
    ensures SameLaunches(s, R.Apply(s, e))
  {
  }

  lemma CreateKeepsLaunches(s: R.State, e: R.Event)
    requires R.Shape(s) && R.Enabled(s, e) && (e.ERejectDone? || e.EEvictSecondDone? || e.Tick?)
    ensures SameLaunches(s, R.Apply(s, e))
  {
  }

  lemma KeepsLaunches(s: R.State, e: R.Event)
    requires R.Shape(s) && R.Enabled(s, e) && (OnItsOwn(e) || e.EPassStarts?)
    ensures SameLaunches(s, R.Apply(s, e))
  {
    if IsReaper(e) {
      ReaperLeavesTasks(s, e);
    } else if e.EAcquireRuns? || e.EWaiterRuns? || e.ETimesOut? || e.EGivesUp? {
      QueueKeepsLaunches(s, e);
    } else if e.ERejectDone? || e.EEvictSecondDone? || e.Tick? {
      CreateKeepsLaunches(s, e);
    } else if e.EResetCall? || e.EPurgeDone? {
      ResetKeepsLaunches(s, e);
    } else {
      RequestKeepsLaunches(s, e);
    }
  }

  lemma OnlyLaunchesMakeEngines(s: R.State, e: R.Event)
    requires R.Shape(s) && R.Enabled(s, e) && !e.ELaunchDone?
    ensures R.Apply(s, e).nextEng == s.nextEng
  {
    if e.EPassStarts? {
      var _ := ScanCases(s, s.now, R.Snapshot(s));
      var _ := SweepCases(s, R.Snapshot(s));
    } else if e.EReapDone? {
      var _ := ScanCases(R.Bury(s), s.reaper.passNow, s.reaper.rest);
    } else if e.ESweepDone? {
      var _ := SweepCases(s, s.reaper.rest);
    }
  }

  /** Until somebody has made an engine session there is none, and a call that made one found Playwright up. */
  lemma NoEngineWithoutPlaywright(s: State)
    requires E.Inv(s.eng) && MakersOk(s)
    ensures !s.eng.started ==> s.reg.nextEng == 0
  {
    if |s.makers| > 0 {
      assert Made(s.eng, s.makers[0]);
      assert E.BrowserOf(s.eng.tasks[s.makers[0]]) != {};
    }
  }

  lemma RegistryStepKeeps(s: State, e: R.Event)
    requires Inv(s.reg) && E.Inv(s.eng) && MakersOk(s) && MarksOk(s) && NothingDropped(s.reg)
    requires R.Enabled(s.reg, e) && !e.ELaunchDone? && (e == R.EPassStarts(false) ==> !s.eng.started)
    ensures var s' := s.(reg := R.Apply(s.reg, e));
      Inv(s'.reg) && MakersOk(s') && MarksOk(s') && NothingDropped(s'.reg)
  {
    var s' := s.(reg := R.Apply(s.reg, e));
    NoEngineWithoutPlaywright(s);
    KeepsInv(s.reg, e);
    OnlyLaunchesMakeEngines(s.reg, e);
    UpKeepsSessions(s.reg, e);
    StepIsLater(s.reg, e);
    ClosedOnlyGrows(s, s');
  }

  /** Sessions once made and closed stay so. */
  lemma ClosedOnlyGrows(s: State, s': State)
    requires MarksOk(s) && s'.eng == s.eng && s.reg.closed <= s'.reg.closed
    requires |s.makers| <= |s'.makers| && s'.makers[..|s.makers|] == s.makers
    ensures MarksOk(s')
  {
  }

  lemma SameLaunchesSameCallers(s: State, s': State)
    requires CallersOk(s) && SameLaunches(s.reg, s'.reg)
    requires s'.eng == s.eng && s'.callers == s.callers && s'.makers == s.makers
    ensures CallersOk(s')
  {
    assert forall u: E.Task, t: R.Task :: CalledBy(s', u, t) <==> CalledBy(s, u, t);
    forall t: R.Task | IsLaunching(s'.reg, t)
      ensures exists u: E.Task :: Pending(s'.eng, u) && CalledBy(s', u, t)
    {
      assert IsLaunching(s.reg, t);
      var u: E.Task :| Pending(s.eng, u) && CalledBy(s, u, t);
      assert Pending(s'.eng, u) && CalledBy(s', u, t);
    }
  }

  lemma ManagerKeeps(s: State, e: R.Event)
    requires WholeInv(s) && R.Enabled(s.reg, e) && (OnItsOwn(e) || e.EPassStarts?)
    requires e == R.EPassStarts(false) ==> !s.eng.started
    ensures WholeInv(s.(reg := R.Apply(s.reg, e)))
  {
    RegistryStepKeeps(s, e);
    KeepsLaunches(s.reg, e);
    SameLaunchesSameCallers(s, s.(reg := R.Apply(s.reg, e)));
  }

  // ---- what a step inside the engine does ------------------------------------------------

  /** What a step inside the engine does to calls and marks. */
  ghost predicate EngineMoves(a: E.State, b: E.State) {
    && |a.tasks| <= |b.tasks| && a.nextBrowser <= b.nextBrowser
    && (forall u: E.Task :: Made(a, u) ==> Made(b, u) && b.tasks[u] == a.tasks[u])
    && (forall x: E.Browser :: E.Mark(x) in a.trace ==> E.Mark(x) in b.trace)
    && (forall x: E.Browser :: E.Mark(x) in b.trace && E.Mark(x) !in a.trace ==>
          x < a.nextBrowser && forall u: E.Task :: !Has(b, u, x))
    && (forall u: E.Task, x: E.Browser :: Has(b, u, x) && !Has(a, u, x) ==> x >= a.nextBrowser)
  }

  lemma NewSessionMoves(s: E.State)
    ensures EngineMoves(s, E.NewSession(s))
  {
  }

  lemma StepDoneMoves(s: E.State, t: E.Task, ok: bool)
    requires E.Accounted(s) && t < |s.tasks|
    ensures EngineMoves(s, E.StepDone(s, t, ok))
  {
    var s' := E.StepDone(s, t, ok);
    if s'.tasks[t].Reclaiming? && !s.tasks[t].Reclaiming? {
      ReclaimMoves(s, t, s'.tasks[t].browser);
    } else {
      assert forall u: E.Task :: u < |s.tasks| && u != t ==> s'.tasks[u] == s.tasks[u];
    }
  }

  lemma ReclaimMoves(s: E.State, t: E.Task, b: E.Browser)
    requires E.Accounted(s) && t < |s.tasks| && b in E.BrowserOf(s.tasks[t]) && !s.tasks[t].Returned?
    ensures EngineMoves(s, E.Reclaim(s, t, b))
  {
  }

  lemma EngineStepMoves(s: E.State, e: E.Event)
    requires E.Inv(s) && E.Enabled(s, e) && !e.ESessionClose?
    ensures EngineMoves(s, E.Apply(s, e))
  {
    match e
    case ENewSession => NewSessionMoves(s);
    case ELockRuns(t) =>
      assert E.Asker(t) in Queue(s.lock);
    case EStartDone(t, ok) =>
    case EStepDone(t, ok) => StepDoneMoves(s, t, ok);
    case EDisconnected(b) =>
  }

  /** An engine step leaves the link between sessions and browsers intact. */
  lemma EngineStepLinks(s: State, eng: E.State)
    requires MakersOk(s) && MarksOk(s) && EngineMoves(s.eng, eng)
    ensures MakersOk(s.(eng := eng)) && MarksOk(s.(eng := eng))
  {
    var s' := s.(eng := eng);
    forall u: E.Task, b: E.Browser | Has(s'.eng, u, b) && E.Mark(b) in s'.eng.trace ensures MadeAndClosed(s', u) {
      assert E.Mark(b) in s.eng.trace;
      assert Has(s.eng, u, b);
      assert MadeAndClosed(s, u);
    }
  }

  lemma DisconnectKeeps(s: State, b: E.Browser)
    requires WholeInv(s) && E.Enabled(s.eng, E.EDisconnected(b))
    ensures WholeInv(Apply(s, Disconnects(b)))
  {
    var s' := Apply(s, Disconnects(b));
    E.KeepsInv(s.eng, E.EDisconnected(b));
    EngineStepMoves(s.eng, E.EDisconnected(b));
    EngineStepLinks(s, s'.eng);
    SameCallsSameCallers(s, s');
  }

  lemma SameCallsSameCallers(s: State, s': State)
    requires CallersOk(s) && s'.eng.tasks == s.eng.tasks
    requires s'.reg == s.reg && s'.callers == s.callers && s'.makers == s.makers
    ensures CallersOk(s')
  {
    assert forall u: E.Task :: Pending(s'.eng, u) <==> Pending(s.eng, u);
    assert forall u: E.Task, t: R.Task :: CalledBy(s', u, t) <==> CalledBy(s, u, t);
    assert forall u: E.Task :: Made(s'.eng, u) <==> Made(s.eng, u);
    forall t: R.Task | IsLaunching(s'.reg, t)
      ensures exists u: E.Task :: Pending(s'.eng, u) && CalledBy(s', u, t)
    {
      var u: E.Task :| Pending(s.eng, u) && CalledBy(s, u, t);
      assert Pending(s'.eng, u) && CalledBy(s', u, t);
    }
  }

  lemma CloseKeeps(s: State, k: R.Eng)
    requires R.Shape(s.reg) && E.Inv(s.eng) && MakersOk(s) && MarksOk(s) && Enabled(s, Close(k))
    ensures var s' := Apply(s, Close(k));
      s'.reg == s.reg && E.Inv(s'.eng) && MakersOk(s') && MarksOk(s')
  {
    CloseMarks(s, k);
    SameCallsSameMakers(s, Apply(s, Close(k)));
    E.SessionCloseKeeps(s.eng, s.eng.tasks[s.makers[k]].browser);
  }

  lemma SameCallsSameMakers(s: State, s': State)
    requires MakersOk(s) && s'.eng.tasks == s.eng.tasks && s'.makers == s.makers && s'.reg == s.reg
    ensures MakersOk(s')
  {
  }

  lemma CloseMarks(s: State, k: R.Eng)
    requires E.Accounted(s.eng) && MarksOk(s) && R.Shape(s.reg) && Enabled(s, Close(k))
    ensures MarksOk(Apply(s, Close(k)))
  {
    var s', call := Apply(s, Close(k)), s.makers[k];
    var b := s.eng.tasks[call].browser;
    assert b in E.BrowserOf(s.eng.tasks[call]);
    forall u: E.Task, x: E.Browser | Has(s'.eng, u, x) && E.Mark(x) in s'.eng.trace ensures MadeAndClosed(s', u) {
      if x == b {
        assert u == call;
      } else {
        assert E.Mark(x) in s.eng.trace && Has(s.eng, u, x);
        assert MadeAndClosed(s, u);
      }
    }
  }

  // ---- a create calls the engine --------------------------------------------------------

  /** Task t is launching afterwards, or not; the others as before. */
  lemma OneLaunchStarts(s: R.State, r: R.Event)
    requires R.Shape(s) && MayLaunch(r) && R.Enabled(s, r)
    ensures var s', t := R.Apply(s, r), Mover(s, r);
      && t < |s'.tasks| && !IsLaunching(s, t)
      && forall u: R.Task :: u != t ==> (IsLaunching(s', u) <==> IsLaunching(s, u))
  {
  }

  lemma NewCallIsPending(s: E.State)
    ensures var s', u := E.NewSession(s), |s.tasks|;
      && |s'.tasks| == u + 1 && Pending(s', u) && s'.tasks[..u] == s.tasks
  {
    assert E.NewSession(s).tasks[..|s.tasks|] == s.tasks;
  }

  lemma CallersBegin(s: State, r: R.Event)
    requires R.Shape(s.reg) && CallersOk(s) && MayLaunch(r) && R.Enabled(s.reg, r)
    requires IsLaunching(R.Apply(s.reg, r), Mover(s.reg, r))
    ensures CallersOk(Begin(s, r))
  {
    var s', t, added := Begin(s, r), Mover(s.reg, r), |s.eng.tasks|;
    OneLaunchStarts(s.reg, r);
    NewCallIsPending(s.eng);
    forall u: E.Task ensures Pending(s'.eng, u) <==> Pending(s.eng, u) || u == added {
      assert u < added ==> s'.eng.tasks[..added][u] == s'.eng.tasks[u];
    }
    forall u: E.Task ensures Made(s'.eng, u) <==> Made(s.eng, u) {
      assert u < added ==> s'.eng.tasks[..added][u] == s'.eng.tasks[u];
    }
    assert forall u: E.Task, x: R.Task :: CalledBy(s', u, x) <==> CalledBy(s, u, x) || (u == added && x == t);
    forall x: R.Task | IsLaunching(s'.reg, x) ensures exists u: E.Task :: Pending(s'.eng, u) && CalledBy(s', u, x) {
      if x == t {
        assert Pending(s'.eng, added) && CalledBy(s', added, x);
      } else {
        assert IsLaunching(s.reg, x);
        var u: E.Task :| Pending(s.eng, u) && CalledBy(s, u, x);
        assert Pending(s'.eng, u) && CalledBy(s', u, x);
      }
    }
  }

  lemma BeginKeeps(s: State, r: R.Event)
    requires WholeInv(s) && MayLaunch(r) && R.Enabled(s.reg, r)
    ensures WholeInv(Begin(s, r))
  {
    var s1 := s.(reg := R.Apply(s.reg, r));
    RegistryStepKeeps(s, r);
    OneLaunchStarts(s.reg, r);
    if IsLaunching(s1.reg, Mover(s.reg, r)) {
      CallersBegin(s, r);
      E.KeepsInv(s.eng, E.ENewSession);
      NewSessionMoves(s.eng);
      EngineStepLinks(s1, E.NewSession(s.eng));
      CallersOnlyLinks(s1.(eng := E.NewSession(s.eng)), Begin(s, r));
    } else {
      SameLaunchesSameCallers(s, s1);
    }
  }

  /** Who called is of no concern to the link between sessions and browsers. */
  lemma CallersOnlyLinks(s: State, s': State)
    requires MakersOk(s) && MarksOk(s) && s' == s.(callers := s'.callers)
    ensures MakersOk(s') && MarksOk(s')
  {
    forall u: E.Task, b: E.Browser | Has(s'.eng, u, b) && E.Mark(b) in s'.eng.trace ensures MadeAndClosed(s', u) {
      assert MadeAndClosed(s, u);
    }
  }

  // ---- a call goes on ----------------------------------------------------------------------

  /** Only call u moves, and it was pending. */
  ghost predicate OneCallMoves(a: E.State, b: E.State, u: E.Task) {
    && |b.tasks| == |a.tasks| && Pending(a, u)
    && forall v: E.Task :: v < |a.tasks| && v != u ==> b.tasks[v] == a.tasks[v]
  }

  lemma CallMoves(s: E.State, x: E.Event)
    requires E.Inv(s) && E.Enabled(s, x) && (x.ELockRuns? || x.EStartDone? || x.EStepDone?)
    ensures OneCallMoves(s, E.Apply(s, x), x.t)
  {
    if x.ELockRuns? {
      assert E.Asker(x.t) in Queue(s.lock);
    }
  }

  /** As long as the call is pending, nothing changes between calls and creates. */
  lemma StillPending(s: State, eng: E.State, u: E.Task)
    requires CallersOk(s) && OneCallMoves(s.eng, eng, u) && Pending(eng, u)
    ensures CallersOk(s.(eng := eng))
  {
    var s' := s.(eng := eng);
    assert forall v: E.Task :: Pending(s'.eng, v) <==> Pending(s.eng, v);
    assert forall v: E.Task :: Made(s'.eng, v) <==> Made(s.eng, v);
    assert forall v: E.Task, t: R.Task :: CalledBy(s', v, t) <==> CalledBy(s, v, t);
    forall t: R.Task | IsLaunching(s'.reg, t)
      ensures exists v: E.Task :: Pending(s'.eng, v) && CalledBy(s', v, t)
    {
      var v: E.Task :| Pending(s.eng, v) && CalledBy(s, v, t);
      assert Pending(s'.eng, v) && CalledBy(s', v, t);
    }
  }

  /** Its create stops launching in the segment in which the call ends. */
  lemma CallEnds(s: State, s': State, u: E.Task)
    requires CallersOk(s) && OneCallMoves(s.eng, s'.eng, u) && !Pending(s'.eng, u) && u < |s.callers|
    requires s'.callers == s.callers
    requires s'.makers == if Made(s'.eng, u) then s.makers + [u] else s.makers
    requires forall t: R.Task :: IsLaunching(s'.reg, t) <==> IsLaunching(s.reg, t) && t != s.callers[u]
    ensures CallersOk(s')
  {
    assert forall v: E.Task :: Pending(s'.eng, v) <==> Pending(s.eng, v) && v != u;
    assert forall v: E.Task :: Made(s'.eng, v) && v != u ==> Made(s.eng, v);
    assert forall v: E.Task, t: R.Task :: CalledBy(s', v, t) <==> CalledBy(s, v, t);
    assert CalledBy(s, u, s.callers[u]);
    forall t: R.Task | IsLaunching(s'.reg, t)
      ensures exists v: E.Task :: Pending(s'.eng, v) && CalledBy(s', v, t)
    {
      var v: E.Task :| Pending(s.eng, v) && CalledBy(s, v, t);
      assert v != u;
      assert Pending(s'.eng, v) && CalledBy(s', v, t);
    }
  }

  lemma OneLaunchEnds(s: R.State, t: R.Task, e: R.Event)
    requires R.Shape(s) && IsLaunching(s, t) && (e == R.ELaunchDone(t) || e == R.ELaunchFailed(t))
    ensures R.Enabled(s, e)
    ensures forall u: R.Task :: IsLaunching(R.Apply(s, e), u) <==> IsLaunching(s, u) && u != t
  {
  }

  lemma HandoverLinks(s: State, call: E.Task)
    requires R.Shape(s.reg) && MakersOk(s) && MarksOk(s) && HasCaller(s, call) && Made(s.eng, call) && call !in s.makers
    ensures MakersOk(Resumed(s, call)) && MarksOk(Resumed(s, call))
  {
    StepIsLater(s.reg, R.ELaunchDone(s.callers[call]));
    ClosedOnlyGrows(s, Resumed(s, call));
  }

  lemma ResumeKeeps(s: State, s1: State, u: E.Task)
    requires Inv(s.reg) && E.Inv(s1.eng) && CallersOk(s) && NothingDropped(s.reg) && MakersOk(s1) && MarksOk(s1)
    requires HasCaller(s, u) && s1 == s.(eng := s1.eng) && OneCallMoves(s.eng, s1.eng, u) && u !in s.makers
    ensures WholeInv(Resumed(s1, u))
  {
    var t := s.callers[u];
    if Made(s1.eng, u) {
      var e := R.ELaunchDone(t);
      OneLaunchEnds(s.reg, t, e);
      KeepsInv(s.reg, e);
      UpKeepsSessions(s.reg, e);
      HandoverLinks(s1, u);
      CallEnds(s, Resumed(s1, u), u);
    } else if Pending(s1.eng, u) {
      StillPending(s, s1.eng, u);
    } else {
      OneLaunchEnds(s.reg, t, R.ELaunchFailed(t));
      RegistryStepKeeps(s1, R.ELaunchFailed(t));
      CallEnds(s, Resumed(s1, u), u);
    }
  }

  lemma CallsKeep(s: State, x: E.Event)
    requires WholeInv(s) && Enabled(s, Calls(x))
    ensures WholeInv(Apply(s, Calls(x)))
  {
    var s1 := s.(eng := E.Apply(s.eng, x));
    E.KeepsInv(s.eng, x);
    EngineStepMoves(s.eng, x);
    EngineStepLinks(s, s1.eng);
    CallMoves(s.eng, x);
    assert x.t !in s.makers;
    ResumeKeeps(s, s1, x.t);
  }

  lemma StepKeepsWhole(s: State, e: Event)
    requires WholeInv(s) && Enabled(s, e)
    ensures WholeInv(Apply(s, e))
  {
    match e
    case Manager(r) => ManagerKeeps(s, r);
    case Begins(r) => BeginKeeps(s, r);
    case Pass => ManagerKeeps(s, R.EPassStarts(s.eng.started));
    case Calls(x) => CallsKeep(s, x);
    case Disconnects(b) => DisconnectKeeps(s, b);
    case Close(k) =>
      CloseKeeps(s, k);
      SameCallsSameCallers(s, Apply(s, e));
  }

  /** The engine never waits for a create: the condition on callers excludes nothing. */
  lemma CallsAreNeverBlocked(s: State, x: E.Event)
    requires WholeInv(s) && E.Enabled(s.eng, x) && (x.ELockRuns? || x.EStartDone? || x.EStepDone?)
    ensures Enabled(s, Calls(x))
  {
    CallMoves(s.eng, x);
    assert CalledBy(s, x.t, s.callers[x.t]);
  }

  lemma {:induction false} RunKeepsWhole(s: State, es: seq<Event>)
    requires WholeInv(s) && Legal(s, es)
    ensures WholeInv(Exec(s, es))
    decreases |es|
  {
    if |es| > 0 {
      StepKeepsWhole(s, es[0]);
      RunKeepsWhole(Apply(s, es[0]), es[1..]);
    }
  }

  lemma StartsWhole(cfg: R.Config, now: real)
    ensures WholeInv(Init(cfg, now))
  {
    InitInv(cfg, now);
    E.InitInv();
  }

  // ---- the main results ----------------------------------------------------------------

  ghost predicate Reached(s: State) {
    exists cfg, now, es :: Legal(Init(cfg, now), es) && Exec(Init(cfg, now), es) == s
  }

  lemma ReachedWhole(s: State)
    requires Reached(s)
    ensures WholeInv(s)
  {
    var cfg, now, es :| Legal(Init(cfg, now), es) && Exec(Init(cfg, now), es) == s;
    StartsWhole(cfg, now);
    RunKeepsWhole(Init(cfg, now), es);
  }

  /** With this engine the mass drop of a pass never removes a session. */
  lemma MassDropIsInert(s: State)
    requires Reached(s)
    ensures s.reg.ledger.dropped == 0 && !s.reg.reaper.Sweeping?
    ensures s.reg.live != {} ==> s.eng.started
  {
    ReachedWhole(s);
    NoEngineWithoutPlaywright(s);
    if x :| x in s.reg.live {
      SessionsNeedAnEngine(s.reg);
    }
  }

  /** Browser b belongs to the session with this id. */
  predicate Owns(s: State, sid: R.Sid, b: E.Browser) {
    && sid < |s.reg.recs| && s.reg.recs[sid].eng < |s.makers|
    && var call := s.makers[s.reg.recs[sid].eng];
       call < |s.eng.tasks| && s.eng.tasks[call] == E.Returned(b)
  }

  lemma EverySessionOwnsOne(s: State, sid: R.Sid)
    requires Reached(s) && sid < |s.reg.recs|
    ensures exists b :: Owns(s, sid, b)
    ensures forall b, c :: Owns(s, sid, b) && Owns(s, sid, c) ==> b == c
  {
    ReachedWhole(s);
    var call := s.makers[s.reg.recs[sid].eng];
    assert Made(s.eng, call);
    assert Owns(s, sid, s.eng.tasks[call].browser);
  }

  lemma NobodyShares(s: State, x: R.Sid, y: R.Sid, b: E.Browser)
    requires Reached(s) && Owns(s, x, b) && Owns(s, y, b)
    ensures x == y
  {
    ReachedWhole(s);
    var u, v := s.makers[s.reg.recs[x].eng], s.makers[s.reg.recs[y].eng];
    assert b in E.BrowserOf(s.eng.tasks[u]) && b in E.BrowserOf(s.eng.tasks[v]);
    assert u == v;
  }

  /**
    As long as `get` finds a session, its browser was not closed on purpose, and every
    disconnect of it is counted as a crash.
  */
  lemma CrashOfAnOpenSessionIsCounted(s: State, sid: R.Sid, b: E.Browser)
    requires Reached(s) && R.Get(s.reg, sid) == R.Found && Owns(s, sid, b)
    ensures E.Mark(b) !in s.eng.trace
    ensures E.OnDisconnected(s.eng, b).restarts == s.eng.restarts + 1
  {
    ReachedWhole(s);
    var k := s.reg.recs[sid].eng;
    assert Has(s.eng, s.makers[k], b);
    assert k !in s.reg.closed;
    assert !MadeAndClosed(s, s.makers[k]);
    E.UnmarkedIsNotIntentional(s.eng.trace, b);
  }

  /**
    The crash counter counts crashes: the first disconnect of a browser adds to it exactly if the
    service had not called `close` on that browser.
  */
  lemma FirstDisconnectIsCountedIff(s: State, b: E.Browser)
    requires Reached(s) && b < s.eng.nextBrowser && E.Disconnect(b) !in s.eng.trace
    ensures R.Shape(s.reg) && Enabled(s, Disconnects(b))
    ensures Apply(s, Disconnects(b)).eng.restarts == s.eng.restarts + if b in s.eng.closeCalled then 0 else 1
  {
    ReachedWhole(s);
    E.FirstDisconnect(s.eng, b);
  }

  /** Call u is that of a launching create, or its engine session is closed, registered or with a create. */
  ghost predicate Answered(s: State, u: E.Task) {
    || (Pending(s.eng, u) && HasCaller(s, u))
    || exists k: R.Eng :: k < |s.makers| && s.makers[k] == u && (k in s.reg.closed || Tended(s.reg, k))
  }

  /**
    No browser is forgotten.  Every browser ever launched is being closed, or is with the call of
    a create that is still waiting for it, or belongs to an engine session that the registry has
    closed, has registered, or holds in a create that is making room for it.
  */
  lemma NoBrowserIsForgotten(s: State, b: E.Browser)
    requires Reached(s) && b < s.eng.nextBrowser && b !in s.eng.closeCalled
    ensures exists u: E.Task :: Has(s.eng, u, b) && Answered(s, u)
  {
    ReachedWhole(s);
    assert E.InHands(s.eng, b);
    var u: E.Task :| u < |s.eng.tasks| && b in E.BrowserOf(s.eng.tasks[u]) && !s.eng.tasks[u].Reclaiming?;
    assert Has(s.eng, u, b);
    if Made(s.eng, u) {
      assert u in s.makers;
      var k: R.Eng :| k < |s.makers| && s.makers[k] == u;
      assert k in s.reg.closed || Tended(s.reg, k);
    } else {
      assert CalledBy(s, u, s.callers[u]) && Pending(s.eng, u);
    }
  }

  /** A create is launching exactly while it has a call of `addedsession` pending, and that call is its own. */
  lemma LaunchingIffOneCall(s: State, t: R.Task)
    requires Reached(s)
    ensures IsLaunching(s.reg, t) <==> exists u: E.Task :: Pending(s.eng, u) && CalledBy(s, u, t)
    ensures forall u: E.Task, v: E.Task ::
              Pending(s.eng, u) && Pending(s.eng, v) && CalledBy(s, u, t) && CalledBy(s, v, t) ==> u == v
  {
    ReachedWhole(s);
  }
}
