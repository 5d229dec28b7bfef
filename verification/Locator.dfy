/**
  Waiting for one element under one time budget, and what every failure on the way becomes.
  What Playwright does is an input: whether each call fails, with what, and how long it takes.
*/
module Locators {
  import opened Common
  import opened Text
  import opened HttpErrors

  /** A Playwright error; `strictCount` is the number its strict-mode message quotes, if any. */
  datatype PwError = PwError(message: string, timedOut: bool, strictCount: Option<int>)

  datatype Call<T> = Ok(value: T) | Failed(error: PwError)

  datatype Locator = Locator(strategy: string, nth: Option<int>)

  datatype WaitState = Attached | Visible

  /** What the page does with one locator, and how many seconds each call takes. */
  datatype Page = Page(build: Call<()>, wait: Call<()>, waitTook: real, count: Call<nat>, countTook: real)

  const STRATEGIES: seq<string> := ["role", "text", "label", "placeholder", "testid", "alt", "title", "css", "xpath"]

  const DEAD_TARGET: seq<string> := [
    "target page, context or browser has been closed", "target closed", "browser has been closed",
    "connection closed", "browser has disconnected"]

  predicate IsDeadTarget(message: string) {
    exists i :: 0 <= i < |DEAD_TARGET| && Contains(Lower(message), DEAD_TARGET[i])
  }

  function Classify(e: PwError): EngineError {
    if e.timedOut then ActionTimeout
    else if IsDeadTarget(e.message) then EngineCrash
    else if Contains(e.message, "strict mode violation") && e.strictCount.Some?
    then LocatorAmbiguous(e.strictCount.value)
    else RuntimeEvalError
  }

  predicate IsSelector(loc: Locator) {
    loc.strategy == "css" || loc.strategy == "xpath"
  }

  /** For an error raised while waiting for or counting a locator: dead target first, then bad grammar. */
  function LocatorError(e: PwError, loc: Locator): EngineError {
    if IsDeadTarget(e.message) then EngineCrash
    else if IsSelector(loc) then InvalidLocatorSyntax
    else Classify(e)
  }

  /** `Escapes` is a Playwright error nobody converts. */
  datatype Resolved = Ready(remaining: int) | Raises(error: EngineError) | Escapes

  function Remaining(timeout: int, elapsed: real): int {
    var left := timeout - (elapsed * 1000.0).Floor;
    if left < 1 then 1 else left
  }

  function Build(loc: Locator, page: Page): Resolved {
    if loc.strategy !in STRATEGIES then Raises(InvalidLocator)
    else if page.build.Ok? then Ready(0)
    else if IsSelector(loc) then Raises(InvalidLocatorSyntax)
    else Escapes
  }

  function ResolveSingle(loc: Locator, timeout: int, state: WaitState, page: Page): Resolved {
    var built := Build(loc, page);
    if !built.Ready? then built
    else match page.wait
      case Failed(e) =>
        if !e.timedOut then Raises(LocatorError(e, loc))
        else if state == Attached then Raises(ElementNotFound)
        else (match page.count
              case Failed(c) => Raises(LocatorError(c, loc))
              case Ok(n) =>
                if n == 0 then Raises(ElementNotFound)
                else if n > 1 && loc.nth.None? then Raises(LocatorAmbiguous(n))
                else Raises(ActionTimeout))
      case Ok(_) =>
        if loc.nth.Some? then Ready(Remaining(timeout, page.waitTook))
        else match page.count
             case Failed(c) => Raises(LocatorError(c, loc))
             case Ok(n) =>
               if n == 0 then Raises(ElementNotFound)
               else if n > 1 then Raises(LocatorAmbiguous(n))
               else Ready(Remaining(timeout, page.waitTook + page.countTook))
  }

  /** What the action itself found: `get_attribute` may find that the element lacks the attribute. */
  datatype Answer = Done | NotPresent

  /**
    A single-element verb: resolve, then act with what is left of the budget.  `press_key` and
    `screenshot` are guarded: they resolve inside the same `try` that converts the action's errors.
  */
  function Verb(loc: Locator, timeout: int, state: WaitState, page: Page, act: Call<Answer>, guarded: bool): Outcome {
    match ResolveSingle(loc, timeout, state, page)
    case Escapes => if guarded && page.build.Failed? then Raised(Classify(page.build.error)) else Unexpected
    case Raises(e) => Raised(e)
    case Ready(_) =>
      match act
      case Ok(Done) => Success
      case Ok(NotPresent) => Raised(AttributeNotPresent)
      case Failed(e) => Raised(Classify(e))
  }

  // ---- one budget --------------------------------------------------------------------

  /** The milliseconds spent before the action starts. */
  function SpentMs(loc: Locator, page: Page): real {
    1000.0 * (page.waitTook + if loc.nth.Some? then 0.0 else page.countTook)
  }

  /**
    The action gets at least 1 ms and never more than the whole budget; unless that minimum
    was needed, waiting and acting together take the timeout to the millisecond.
  */
  lemma OneBudget(loc: Locator, timeout: int, state: WaitState, page: Page)
    requires timeout >= 1 && page.waitTook >= 0.0 && page.countTook >= 0.0
    requires ResolveSingle(loc, timeout, state, page).Ready?
    ensures var left, spent := ResolveSingle(loc, timeout, state, page).remaining, SpentMs(loc, page);
      && 1 <= left <= timeout
      && (spent < timeout as real ==> timeout as real <= spent + left as real < timeout as real + 1.0)
      && (spent >= timeout as real ==> left == 1)
  {
  }

  /** If the wait keeps to its timeout and the action to what it was given, the count is all that comes on top. */
  lemma VerbFitsTheBudget(loc: Locator, timeout: int, state: WaitState, page: Page, actTook: real)
    requires timeout >= 1 && 0.0 <= 1000.0 * page.waitTook <= timeout as real && page.countTook >= 0.0
    requires ResolveSingle(loc, timeout, state, page).Ready?
    requires 1000.0 * actTook <= ResolveSingle(loc, timeout, state, page).remaining as real
    ensures SpentMs(loc, page) + 1000.0 * actTook <= timeout as real + 1000.0 * page.countTook + 1.0
  {
  }

  // ---- what each failure becomes --------------------------------------------------------

  /** Success without `nth` means the locator matched exactly one element when it was counted. */
  lemma ReadyMeansOne(loc: Locator, timeout: int, state: WaitState, page: Page)
    requires ResolveSingle(loc, timeout, state, page).Ready?
    ensures page.wait.Ok? && loc.strategy in STRATEGIES
    ensures loc.nth.None? ==> page.count == Ok(1)
  {
  }

  predicate Waited(loc: Locator, page: Page) {
    loc.strategy in STRATEGIES && page.build.Ok?
  }

  predicate Counted(loc: Locator, state: WaitState, page: Page) {
    Waited(loc, page) &&
    match page.wait
    case Ok(_) => loc.nth.None?
    case Failed(e) => e.timedOut && state != Attached
  }

  /**
    A verb answers 404 exactly when no element matched (the count said so, or an element awaited
    only to be attached never was) or the one that matched lacks the attribute asked for.  A
    hidden element is never reported as missing.
  */
  lemma NotFoundIff(loc: Locator, timeout: int, state: WaitState, page: Page, act: Call<Answer>, guarded: bool)
    ensures OutcomeStatus(Verb(loc, timeout, state, page, act, guarded)) == 404 <==>
      || (Counted(loc, state, page) && page.count == Ok(0))
      || (Waited(loc, page) && state == Attached && page.wait.Failed? && page.wait.error.timedOut)
      || (ResolveSingle(loc, timeout, state, page).Ready? && act == Ok(NotPresent))
  {
  }

  /** An error that Playwright's strict mode reports, quoting n matches. */
  predicate QuotesMatches(e: PwError, n: int) {
    && !e.timedOut && !IsDeadTarget(e.message)
    && Contains(e.message, "strict mode violation") && e.strictCount == Some(n)
  }

  /** More than one match is reported, with their number, exactly when `nth` did not choose among them. */
  lemma AmbiguousIff(loc: Locator, timeout: int, state: WaitState, page: Page, n: int)
    ensures ResolveSingle(loc, timeout, state, page) == Raises(LocatorAmbiguous(n)) <==>
      || (Counted(loc, state, page) && page.count.Ok? && page.count.value == n && n > 1 && loc.nth.None?)
      || (!IsSelector(loc) && Waited(loc, page) && page.wait.Failed? && QuotesMatches(page.wait.error, n))
      || (!IsSelector(loc) && Counted(loc, state, page) && page.count.Failed? && QuotesMatches(page.count.error, n))
  {
  }

  /** A wait is reported as timed out exactly when a chosen or single element was there but never became ready. */
  lemma TimedOutIff(loc: Locator, timeout: int, state: WaitState, page: Page)
    ensures ResolveSingle(loc, timeout, state, page) == Raises(ActionTimeout) <==>
      || (Waited(loc, page) && page.wait.Failed? && page.wait.error.timedOut && state != Attached &&
          page.count.Ok? && (page.count.value == 1 || (page.count.value > 1 && loc.nth.Some?)))
      || (!IsSelector(loc) && Counted(loc, state, page) && page.count.Failed? &&
          page.count.error.timedOut && !IsDeadTarget(page.count.error.message))
  {
  }

  /** A selector is called malformed exactly when a call on it failed, and not for time or a dead browser. */
  lemma BadSyntaxIff(loc: Locator, timeout: int, state: WaitState, page: Page)
    ensures ResolveSingle(loc, timeout, state, page) == Raises(InvalidLocatorSyntax) <==>
      IsSelector(loc) &&
      (|| page.build.Failed?
       || (page.wait.Failed? && !page.wait.error.timedOut && !IsDeadTarget(page.wait.error.message))
       || (Counted(loc, state, page) && page.count.Failed? && !IsDeadTarget(page.count.error.message)))
  {
  }

  /** The error is one that says the browser is gone. */
  predicate SaysDead(e: PwError) {
    !e.timedOut && IsDeadTarget(e.message)
  }

  /**
    A verb is a server error, and is counted as one, exactly when the locator could not be built
    and the error was not turned into a better one, or one of the calls the verb reached reports
    a dead browser.  Never a gateway error.
  */
  lemma ServerErrorIff(loc: Locator, timeout: int, state: WaitState, page: Page, act: Call<Answer>, guarded: bool)
    ensures var o := Verb(loc, timeout, state, page, act, guarded);
      && (CountsAsError(o) <==> OutcomeStatus(o) >= 500)
      && (OutcomeStatus(o) >= 500 <==> OutcomeStatus(o) == 500)
      && (OutcomeStatus(o) == 500 <==>
            || (loc.strategy in STRATEGIES && !IsSelector(loc) && page.build.Failed? &&
                (guarded ==> SaysDead(page.build.error)))
            || (Waited(loc, page) && page.wait.Failed? && SaysDead(page.wait.error))
            || (Counted(loc, state, page) && page.count.Failed? && IsDeadTarget(page.count.error.message))
            || (ResolveSingle(loc, timeout, state, page).Ready? && act.Failed? && SaysDead(act.error)))
  {
  }

  /** Nine ways to name an element; any other is turned away before the page is asked. */
  lemma UnknownStrategyIff(loc: Locator, timeout: int, state: WaitState, page: Page)
    ensures loc.strategy !in {"role", "text", "label", "placeholder", "testid", "alt", "title", "css", "xpath"} <==>
      ResolveSingle(loc, timeout, state, page) == Raises(InvalidLocator)
  {
    assert forall x :: x in STRATEGIES <==>
      x in {"role", "text", "label", "placeholder", "testid", "alt", "title", "css", "xpath"};
  }

  /** The error says that Playwright has lost the page or the browser. */
  ghost predicate LostTarget(message: string) {
    || Contains(Lower(message), "target page, context or browser has been closed")
    || Contains(Lower(message), "target closed")
    || Contains(Lower(message), "browser has been closed")
    || Contains(Lower(message), "connection closed")
    || Contains(Lower(message), "browser has disconnected")
  }

  lemma LostTargetIff(message: string)
    ensures IsDeadTarget(message) <==> LostTarget(message)
  {
    assert DEAD_TARGET[0] == "target page, context or browser has been closed" && DEAD_TARGET[1] == "target closed";
    assert DEAD_TARGET[2] == "browser has been closed" && DEAD_TARGET[3] == "connection closed";
    assert DEAD_TARGET[4] == "browser has disconnected";
  }

  /** What the action's own error becomes: out of time, a lost target, too many matches, or the caller's fault. */
  lemma ActionErrorStatus(loc: Locator, timeout: int, state: WaitState, page: Page, act: Call<Answer>, guarded: bool)
    requires ResolveSingle(loc, timeout, state, page).Ready? && act.Failed?
    ensures var o := Verb(loc, timeout, state, page, act, guarded);
      && o.Raised?
      && (act.error.timedOut ==> o.error == ActionTimeout && OutcomeStatus(o) == 409)
      && (!act.error.timedOut && LostTarget(act.error.message) ==> o.error == EngineCrash && OutcomeStatus(o) == 500)
      && (forall n :: QuotesMatches(act.error, n) ==> o.error == LocatorAmbiguous(n) && OutcomeStatus(o) == 409)
      && (!act.error.timedOut && !LostTarget(act.error.message) && (forall n :: !QuotesMatches(act.error, n)) ==>
            o.error.RuntimeEvalError? && OutcomeStatus(o) == 422)
  {
    LostTargetIff(act.error.message);
    if !act.error.timedOut && !IsDeadTarget(act.error.message) && act.error.strictCount.Some? {
      assert Contains(act.error.message, "strict mode violation") ==>
               QuotesMatches(act.error, act.error.strictCount.value);
    }
  }

  /** What a guarded verb makes of a locator that could not be built, and an unguarded one does not. */
  lemma GuardedBuildError(loc: Locator, timeout: int, state: WaitState, page: Page, act: Call<Answer>)
    requires loc.strategy in STRATEGIES && !IsSelector(loc) && page.build.Failed?
    ensures Verb(loc, timeout, state, page, act, false) == Unexpected
    ensures Verb(loc, timeout, state, page, act, true) == Raised(Classify(page.build.error))
    ensures OutcomeStatus(Verb(loc, timeout, state, page, act, true)) in {409, 422, 500}
  {
  }

  /** Every outcome of a verb is one of the documented statuses. */
  lemma DocumentedStatuses(loc: Locator, timeout: int, state: WaitState, page: Page, act: Call<Answer>, guarded: bool)
    ensures OutcomeStatus(Verb(loc, timeout, state, page, act, guarded)) in {200, 400, 404, 409, 422, 500}
    ensures OutcomeStatus(Verb(loc, timeout, state, page, act, guarded)) == 200 <==>
      ResolveSingle(loc, timeout, state, page).Ready? && act == Ok(Done)
  {
  }
}
