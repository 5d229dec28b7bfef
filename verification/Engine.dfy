/**
  The browser engine: Playwright is started once, lazily, under a lock; every session owns one
  browser process; and a browser that disconnects without having been closed on purpose is
  counted as a crash.
*/
module Engine {
  import opened AsyncLock

  type Task = nat
  type Browser = nat

  /** Where a `new_session` call is suspended, or how it ended. */
  datatype Pc =
    | AtLock
    | Starting
    | Launching
    | MakingContext(browser: Browser)
    | MakingPage(browser: Browser)
    | Routing(browser: Browser)
    | Reclaiming(browser: Browser)
    | Returned(browser: Browser)
    | Failed

  /** What happens to a browser from the outside: marked as closed on purpose, or disconnected. */
  datatype Sign = Mark(browser: Browser) | Disconnect(browser: Browser)

  datatype State = State(
    started: bool,
    starts: nat,
    lock: Lock,
    tasks: seq<Pc>,
    nextBrowser: Browser,
    intentional: set<Browser>,
    restarts: nat,
    closeCalled: set<Browser>,
    trace: seq<Sign>)

  const INIT := State(false, 0, UNLOCKED, [], 0, {}, 0, {}, [])

  function Asker(t: Task): Who {
    Request(t, false)
  }

  function At(s: State, t: Task, pc: Pc): State
    requires t < |s.tasks|
  {
    s.(tasks := s.tasks[t := pc])
  }

  // ---- starting Playwright -------------------------------------------------------------

  /** Inside the lock: the second look at whether somebody has started Playwright meanwhile. */
  function Inside(s: State, t: Task): State
    requires t < |s.tasks|
  {
    if s.started then At(s.(lock := Release(s.lock)), t, Launching) else At(s, t, Starting)
  }

  /** `new_session` is called; `_ensure_pw` looks once, then takes its turn at the lock. */
  function NewSession(s: State): State {
    var t := |s.tasks|;
    if s.started then s.(tasks := s.tasks + [Launching])
    else
      var s1 := s.(tasks := s.tasks + [AtLock], lock := Acquire(s.lock, Asker(t)));
      if CanTake(s.lock) then Inside(s1, t) else s1
  }

  function LockRuns(s: State, t: Task): State
    requires t < |s.tasks| && Asker(t) in Queue(s.lock)
  {
    Inside(s.(lock := Resume(s.lock, Asker(t))), t)
  }

  function StartDone(s: State, t: Task, ok: bool): State
    requires t < |s.tasks|
  {
    var s1 := s.(lock := Release(s.lock));
    if ok then At(s1.(started := true, starts := s.starts + 1), t, Launching) else At(s1, t, Failed)
  }

  // ---- launching a browser -------------------------------------------------------------

  function NoteIntentionalClose(s: State, b: Browser): State {
    s.(intentional := s.intentional + {b}, trace := s.trace + [Mark(b)])
  }

  /** The `finally` of a `new_session` that does not hand its browser over. */
  function Reclaim(s: State, t: Task, b: Browser): State
    requires t < |s.tasks|
  {
    At(NoteIntentionalClose(s, b).(closeCalled := s.closeCalled + {b}), t, Reclaiming(b))
  }

  function StepDone(s: State, t: Task, ok: bool): State
    requires t < |s.tasks|
  {
    match s.tasks[t]
    case Launching =>
      if ok then At(s.(nextBrowser := s.nextBrowser + 1), t, MakingContext(s.nextBrowser)) else At(s, t, Failed)
    case MakingContext(b) => if ok then At(s, t, MakingPage(b)) else Reclaim(s, t, b)
    case MakingPage(b) => if ok then At(s, t, Routing(b)) else Reclaim(s, t, b)
    case Routing(b) => if ok then At(s, t, Returned(b)) else Reclaim(s, t, b)
    case Reclaiming(_) => At(s, t, Failed)
    case _ => s
  }

  /** The second half of a session's `close`: mark the browser, then close it. */
  function SessionClose(s: State, b: Browser): State {
    NoteIntentionalClose(s, b).(closeCalled := s.closeCalled + {b})
  }

  function OnDisconnected(s: State, b: Browser): State {
    var s1 := s.(trace := s.trace + [Disconnect(b)]);
    if b in s.intentional then s1.(intentional := s.intentional - {b}) else s1.(restarts := s.restarts + 1)
  }

  datatype Event =
    | ENewSession
    | ELockRuns(t: Task)
    | EStartDone(t: Task, ok: bool)
    | EStepDone(t: Task, ok: bool)
    | ESessionClose(b: Browser)
    | EDisconnected(b: Browser)

  /** The call is waiting for Playwright to launch, set up or close a browser. */
  predicate Stepping(pc: Pc) {
    pc.Launching? || pc.MakingContext? || pc.MakingPage? || pc.Routing? || pc.Reclaiming?
  }

  predicate Handed(s: State, b: Browser) {
    exists t :: 0 <= t < |s.tasks| && s.tasks[t] == Returned(b)
  }

  predicate Enabled(s: State, e: Event) {
    match e
    case ENewSession => true
    case ELockRuns(t) => t < |s.tasks| && IsWaiting(s.lock, Asker(t), Woken)
    case EStartDone(t, _) => t < |s.tasks| && s.tasks[t].Starting?
    case EStepDone(t, _) => t < |s.tasks| && Stepping(s.tasks[t])
    case ESessionClose(b) => Handed(s, b)
    case EDisconnected(b) => b < s.nextBrowser
  }

  function Apply(s: State, e: Event): State
    requires Enabled(s, e)
  {
    match e
    case ENewSession => NewSession(s)
    case ELockRuns(t) => LockRuns(s, t)
    case EStartDone(t, ok) => StartDone(s, t, ok)
    case EStepDone(t, ok) => StepDone(s, t, ok)
    case ESessionClose(b) => SessionClose(s, b)
    case EDisconnected(b) => OnDisconnected(s, b)
  }

  ghost predicate Legal(s: State, es: seq<Event>)
    decreases |es|
  {
    |es| == 0 || (Enabled(s, es[0]) && Legal(Apply(s, es[0]), es[1..]))
  }

  ghost function Exec(s: State, es: seq<Event>): State
    requires Legal(s, es)
    decreases |es|
  {
    if |es| == 0 then s else Exec(Apply(s, es[0]), es[1..])
  }

  // ---- the invariant -------------------------------------------------------------------

  function BrowserOf(pc: Pc): set<Browser> {
    match pc
    case MakingContext(b) => {b}
    case MakingPage(b) => {b}
    case Routing(b) => {b}
    case Reclaiming(b) => {b}
    case Returned(b) => {b}
    case _ => {}
  }

  predicate HolderIsCall(s: State) {
    match s.lock.holder
    case Free => true
    case By(w) => w.Request? && !w.timed && w.task < |s.tasks|
    case Retired => false
  }

  /** Only the holder of the lock starts Playwright, and only as long as nobody has. */
  ghost predicate StartedOnce(s: State) {
    && Good(s.lock)
    && s.starts == (if s.started then 1 else 0)
    && (forall t: Task :: t < |s.tasks| && s.tasks[t].Starting? ==> !s.started && s.lock.holder == By(Asker(t)))
    && (forall w :: w in Queue(s.lock) ==>
          w.Request? && !w.timed && w.task < |s.tasks| && s.tasks[w.task].AtLock? && s.lock.holder != By(w))
    && HolderIsCall(s)
    && (forall t: Task :: t < |s.tasks| && (s.tasks[t].Launching? || BrowserOf(s.tasks[t]) != {}) ==> s.started)
    && (s.nextBrowser > 0 ==> s.started)
  }

  /** A launched browser is in the hands of one call, which closes it unless it hands it over. */
  ghost predicate Accounted(s: State) {
    && (forall t: Task, b :: t < |s.tasks| && b in BrowserOf(s.tasks[t]) ==> b < s.nextBrowser)
    && (forall t: Task, u: Task, b ::
          t < |s.tasks| && u < |s.tasks| && b in BrowserOf(s.tasks[t]) && b in BrowserOf(s.tasks[u]) ==> t == u)
    && (forall b: Browser :: b < s.nextBrowser && b !in s.closeCalled ==> InHands(s, b))
  }

  ghost predicate InHands(s: State, b: Browser) {
    exists t :: 0 <= t < |s.tasks| && b in BrowserOf(s.tasks[t]) && !s.tasks[t].Reclaiming?
  }

  /** Marked in the trace and not disconnected since. */
  predicate MarkedIn(trace: seq<Sign>, b: Browser) {
    if |trace| == 0 then false
    else if trace[|trace| - 1] == Mark(b) then true
    else if trace[|trace| - 1] == Disconnect(b) then false
    else MarkedIn(trace[..|trace| - 1], b)
  }

  function Crashes(trace: seq<Sign>): nat {
    if |trace| == 0 then 0
    else
      var init, last := trace[..|trace| - 1], trace[|trace| - 1];
      Crashes(init) + if last.Disconnect? && !MarkedIn(init, last.browser) then 1 else 0
  }

  function Disconnects(trace: seq<Sign>): nat {
    if |trace| == 0 then 0 else Disconnects(trace[..|trace| - 1]) + if trace[|trace| - 1].Disconnect? then 1 else 0
  }

  /** Disconnects that used up a mark. */
  function Consumed(trace: seq<Sign>): nat {
    if |trace| == 0 then 0
    else
      var init, last := trace[..|trace| - 1], trace[|trace| - 1];
      Consumed(init) + if last.Disconnect? && MarkedIn(init, last.browser) then 1 else 0
  }

  ghost predicate Tallied(s: State) {
    && s.restarts == Crashes(s.trace)
    && (forall b :: b in s.intentional <==> MarkedIn(s.trace, b))
    && (forall b :: b in s.closeCalled <==> Mark(b) in s.trace)
  }

  ghost predicate Inv(s: State) {
    StartedOnce(s) && Accounted(s) && Tallied(s)
  }

  lemma InitInv()
    ensures Inv(INIT)
  {
    assert Queue(UNLOCKED) == {};
  }

  // ---- every segment keeps it ----------------------------------------------------------

  lemma TalliedStep(s: State, s': State, sign: Sign)
    requires Tallied(s) && s'.trace == s.trace + [sign]
    requires s'.closeCalled == s.closeCalled + if sign.Mark? then {sign.browser} else {}
    requires s'.intentional == match sign case Mark(b) => s.intentional + {b} case Disconnect(b) => s.intentional - {b}
    requires s'.restarts == s.restarts + if sign.Disconnect? && sign.browser !in s.intentional then 1 else 0
    ensures Tallied(s')
  {
  }

  lemma InsideKeeps(s: State, t: Task)
    requires t < |s.tasks| && s.tasks[t].AtLock? && StartedOnce(s) && Accounted(s) && s.lock.holder == By(Asker(t))
    ensures StartedOnce(Inside(s, t)) && Accounted(Inside(s, t))
  {
    var s' := Inside(s, t);
    ReleaseKeeps(s.lock);
    AccountedStep(s, s', t);
    if s.started {
      assert Queue(s'.lock) == Queue(s.lock);
    }
  }

  /** One call moves without launching, dropping or closing a browser. */
  lemma AccountedStep(s: State, s': State, t: Task)
    requires Accounted(s) && t < |s'.tasks| && |s.tasks| <= |s'.tasks| <= |s.tasks| + 1
    requires forall u: Task :: u < |s'.tasks| && u != t ==> u < |s.tasks| && s'.tasks[u] == s.tasks[u]
    requires BrowserOf(s'.tasks[t]) == if t < |s.tasks| then BrowserOf(s.tasks[t]) else {}
    requires s'.tasks[t].Reclaiming? ==> BrowserOf(s'.tasks[t]) <= s'.closeCalled
    requires s'.nextBrowser == s.nextBrowser && s.closeCalled <= s'.closeCalled
    ensures Accounted(s')
  {
  }

  lemma NewSessionKeeps(s: State)
    requires Inv(s)
    ensures Inv(NewSession(s))
  {
    var s', t := NewSession(s), |s.tasks|;
    AccountedStep(s, s', t);
    if !s.started {
      var s1 := s.(tasks := s.tasks + [AtLock], lock := Acquire(s.lock, Asker(t)));
      assert forall w :: w in Queue(s.lock) ==> w != Asker(t) && w != Reaper;
      AcquireKeeps(s.lock, Asker(t));
      AccountedStep(s, s1, t);
      assert forall u: Task :: u < |s.tasks| ==> s1.tasks[u] == s.tasks[u];
      assert StartedOnce(s1);
      if CanTake(s.lock) {
        InsideKeeps(s1, t);
      }
    }
  }

  lemma LockRunsKeeps(s: State, t: Task)
    requires Inv(s) && Enabled(s, ELockRuns(t))
    ensures Inv(LockRuns(s, t))
  {
    var s1 := s.(lock := Resume(s.lock, Asker(t)));
    ResumeKeeps(s.lock, Asker(t));
    assert Asker(t) in Queue(s.lock) && s.tasks[t].AtLock?;
    assert forall u: Task :: u < |s.tasks| ==> !s.tasks[u].Starting?;
    assert StartedOnce(s1);
    AccountedStep(s, s1, t);
    InsideKeeps(s1, t);
  }

  lemma StartDoneKeeps(s: State, t: Task, ok: bool)
    requires Inv(s) && Enabled(s, EStartDone(t, ok))
    ensures Inv(StartDone(s, t, ok))
  {
    ReleaseKeeps(s.lock);
    AccountedStep(s, StartDone(s, t, ok), t);
  }

  lemma ReclaimKeeps(s: State, t: Task, b: Browser)
    requires Inv(s) && t < |s.tasks| && BrowserOf(s.tasks[t]) == {b}
    ensures Inv(Reclaim(s, t, b))
  {
    var s' := Reclaim(s, t, b);
    AccountedStep(s, s', t);
    TalliedStep(s, s', Mark(b));
  }

  lemma LaunchedKeeps(s: State, t: Task)
    requires Inv(s) && t < |s.tasks| && s.tasks[t].Launching?
    ensures Inv(At(s.(nextBrowser := s.nextBrowser + 1), t, MakingContext(s.nextBrowser)))
  {
    var s' := At(s.(nextBrowser := s.nextBrowser + 1), t, MakingContext(s.nextBrowser));
    forall b: Browser | b < s'.nextBrowser && b !in s'.closeCalled ensures InHands(s', b) {
      if b == s.nextBrowser {
        assert b in BrowserOf(s'.tasks[t]);
      } else {
        assert InHands(s, b);
        var u :| 0 <= u < |s.tasks| && b in BrowserOf(s.tasks[u]) && !s.tasks[u].Reclaiming?;
        assert b in BrowserOf(s'.tasks[u]);
      }
    }
  }

  lemma ReclaimedKeeps(s: State, t: Task)
    requires Inv(s) && t < |s.tasks| && s.tasks[t].Reclaiming?
    ensures Inv(At(s, t, Failed))
  {
    var s' := At(s, t, Failed);
    forall b: Browser | b < s'.nextBrowser && b !in s'.closeCalled ensures InHands(s', b) {
      assert InHands(s, b);
      var u :| 0 <= u < |s.tasks| && b in BrowserOf(s.tasks[u]) && !s.tasks[u].Reclaiming?;
      assert b in BrowserOf(s'.tasks[u]);
    }
  }

  lemma StepDoneKeeps(s: State, t: Task, ok: bool)
    requires Inv(s) && t < |s.tasks|
    ensures Inv(StepDone(s, t, ok))
  {
    var pc := s.tasks[t];
    if pc.Launching? && ok {
      LaunchedKeeps(s, t);
    } else if pc.Reclaiming? {
      ReclaimedKeeps(s, t);
    } else if !ok && BrowserOf(pc) != {} && !pc.Returned? {
      ReclaimKeeps(s, t, pc.browser);
    } else {
      AccountedStep(s, StepDone(s, t, ok), t);
    }
  }

  lemma SessionCloseKeeps(s: State, b: Browser)
    requires Inv(s)
    ensures Inv(SessionClose(s, b))
  {
  }

  lemma OnDisconnectedKeeps(s: State, b: Browser)
    requires Inv(s)
    ensures Inv(OnDisconnected(s, b))
  {
    TalliedStep(s, OnDisconnected(s, b), Disconnect(b));
  }

  lemma KeepsInv(s: State, e: Event)
    requires Inv(s) && Enabled(s, e)
    ensures Inv(Apply(s, e))
  {
    match e
    case ENewSession => NewSessionKeeps(s);
    case ELockRuns(t) => LockRunsKeeps(s, t);
    case EStartDone(t, ok) => StartDoneKeeps(s, t, ok);
    case EStepDone(t, ok) => StepDoneKeeps(s, t, ok);
    case ESessionClose(b) => SessionCloseKeeps(s, b);
    case EDisconnected(b) => OnDisconnectedKeeps(s, b);
  }

  lemma {:induction false} RunKeepsInv(s: State, es: seq<Event>)
    requires Inv(s) && Legal(s, es)
    ensures Inv(Exec(s, es))
    decreases |es|
  {
    if |es| > 0 {
      KeepsInv(s, es[0]);
      RunKeepsInv(Apply(s, es[0]), es[1..]);
    }
  }

  // ---- the main results ----------------------------------------------------------------

  /**
    However many sessions are created at once, Playwright is started at most once, and nobody
    is starting it a second time; and from the first browser on the engine reports itself alive.
  */
  lemma PlaywrightStartsOnce(es: seq<Event>, t: Task, u: Task)
    requires Legal(INIT, es)
    ensures var s := Exec(INIT, es);
      && s.starts <= 1 && (s.starts == 1 <==> s.started)
      && (t < |s.tasks| && s.tasks[t].Starting? ==> !s.started)
      && (t < |s.tasks| && u < |s.tasks| && s.tasks[t].Starting? && s.tasks[u].Starting? ==> t == u)
      && (s.nextBrowser > 0 ==> s.started)
  {
    InitInv();
    RunKeepsInv(INIT, es);
  }

  /** Whichever step fails, a launched browser is with its call, with one session, or closed. */
  lemma NoBrowserIsLost(es: seq<Event>, b: Browser)
    requires Legal(INIT, es) && b < Exec(INIT, es).nextBrowser
    ensures var s := Exec(INIT, es);
      b in s.closeCalled || exists t :: 0 <= t < |s.tasks| && b in BrowserOf(s.tasks[t]) && !s.tasks[t].Reclaiming?
    ensures var s := Exec(INIT, es);
      forall t: Task, u: Task ::
        (t < |s.tasks| && s.tasks[t] == Returned(b) && u < |s.tasks| && s.tasks[u] == Returned(b)) ==> t == u
  {
    InitInv();
    RunKeepsInv(INIT, es);
    var s := Exec(INIT, es);
    assert b !in s.closeCalled ==> InHands(s, b);
    assert forall t: Task :: t < |s.tasks| && s.tasks[t] == Returned(b) ==> b in BrowserOf(s.tasks[t]);
  }

  lemma {:induction false} EveryDisconnectIsOneOrTheOther(trace: seq<Sign>)
    ensures Crashes(trace) + Consumed(trace) == Disconnects(trace)
  {
    if |trace| > 0 {
      EveryDisconnectIsOneOrTheOther(trace[..|trace| - 1]);
    }
  }

  /** The crash counter and the marks used up account for every disconnect there has been. */
  lemma RestartsAddUp(es: seq<Event>)
    requires Legal(INIT, es)
    ensures var s := Exec(INIT, es); s.restarts + Consumed(s.trace) == Disconnects(s.trace)
  {
    InitInv();
    RunKeepsInv(INIT, es);
    EveryDisconnectIsOneOrTheOther(Exec(INIT, es).trace);
  }

  lemma {:induction false} MarkedIffEarlierMark(trace: seq<Sign>, b: Browser)
    requires forall i :: 0 <= i < |trace| ==> trace[i] != Disconnect(b)
    ensures MarkedIn(trace, b) <==> Mark(b) in trace
  {
    if |trace| > 0 && trace[|trace| - 1] != Mark(b) {
      MarkedIffEarlierMark(trace[..|trace| - 1], b);
    }
  }

  lemma {:induction false} MarkLasts(trace: seq<Sign>, b: Browser)
    requires Mark(b) in trace && Disconnect(b) !in trace
    ensures MarkedIn(trace, b)
  {
    if trace[|trace| - 1] != Mark(b) {
      MarkLasts(trace[..|trace| - 1], b);
    }
  }

  /** A first disconnect is counted as a crash exactly if nobody had called `close` on the browser. */
  lemma CountedIffNotClosed(es: seq<Event>, b: Browser)
    requires Legal(INIT, es) && Disconnect(b) !in Exec(INIT, es).trace
    ensures var s := Exec(INIT, es);
      OnDisconnected(s, b).restarts == s.restarts + if b in s.closeCalled then 0 else 1
  {
    InitInv();
    RunKeepsInv(INIT, es);
    FirstDisconnect(Exec(INIT, es), b);
  }

  lemma FirstDisconnect(s: State, b: Browser)
    requires Tallied(s) && Disconnect(b) !in s.trace
    ensures OnDisconnected(s, b).restarts == s.restarts + if b in s.closeCalled then 0 else 1
  {
    if b in s.closeCalled {
      MarkLasts(s.trace, b);
    } else {
      UnmarkedIsNotIntentional(s.trace, b);
    }
  }

  /** Every deliberate close leaves its mark, and nothing else does. */
  lemma ClosedIffMarked(es: seq<Event>, b: Browser)
    requires Legal(INIT, es)
    ensures b in Exec(INIT, es).closeCalled <==> Mark(b) in Exec(INIT, es).trace
  {
    InitInv();
    RunKeepsInv(INIT, es);
  }

  /** How far a call has got: the browser, its context, its page, its interceptor. */
  function Stage(pc: Pc): nat {
    match pc
    case Launching => 1
    case MakingContext(_) => 2
    case MakingPage(_) => 3
    case Routing(_) => 4
    case Returned(_) => 5
    case _ => 0
  }

  /** A call launches once Playwright is up, and fails if it was the one to start it and could not. */
  lemma StartGoesWhere(s: State, t: Task, ok: bool)
    ensures var pc := NewSession(s).tasks[|s.tasks|];
      && (s.started <==> pc.Launching?)
      && (pc.Starting? <==> !s.started && CanTake(s.lock)) && (pc.AtLock? <==> !s.started && !CanTake(s.lock))
    ensures Enabled(s, ELockRuns(t)) ==> LockRuns(s, t).tasks[t] == if s.started then Launching else Starting
    ensures Enabled(s, EStartDone(t, ok)) ==>
      var s' := StartDone(s, t, ok);
      && s'.tasks[t] == (if ok then Launching else Failed) && s'.started == (s.started || ok)
      && s'.lock.holder == Free
  {
  }

  /** Each success is one stage, with the same browser; each failure once there is a browser closes it. */
  lemma OneStageAtATime(s: State, t: Task, ok: bool)
    requires Enabled(s, EStepDone(t, ok)) && Stage(s.tasks[t]) > 0
    ensures var s' := StepDone(s, t, ok); var pc, pc' := s.tasks[t], s'.tasks[t];
      && (ok ==> Stage(pc') == Stage(pc) + 1 && (Stage(pc) > 1 ==> BrowserOf(pc') == BrowserOf(pc)))
      && (ok && Stage(pc) == 1 ==> BrowserOf(pc') == {s.nextBrowser} && s'.nextBrowser == s.nextBrowser + 1)
      && (!ok ==> BrowserOf(pc') == BrowserOf(pc) && BrowserOf(pc) <= s'.closeCalled)
      && (!ok ==> pc'.Failed? || pc'.Reclaiming?)
  {
  }

  lemma {:induction false} UnmarkedIsNotIntentional(trace: seq<Sign>, b: Browser)
    ensures MarkedIn(trace, b) ==> Mark(b) in trace
  {
    if |trace| > 0 {
      UnmarkedIsNotIntentional(trace[..|trace| - 1], b);
    }
  }

  /** A browser that disconnects for the first time is counted iff nobody had marked it before. */
  lemma CountedIffUnmarked(es: seq<Event>, b: Browser)
    requires Legal(INIT, es) && Disconnect(b) !in Exec(INIT, es).trace
    ensures var s := Exec(INIT, es);
      OnDisconnected(s, b).restarts == s.restarts + if Mark(b) in s.trace then 0 else 1
  {
    InitInv();
    RunKeepsInv(INIT, es);
    MarkedIffEarlierMark(Exec(INIT, es).trace, b);
  }
}
