/** Engine-typed errors and the HTTP status each one becomes. */
module HttpErrors {

  /** The engine's error classes; `Other` is the base class or an unlisted subclass. */
  datatype EngineError =
    | ElementNotFound
    | AttributeNotPresent
    | LocatorAmbiguous(count: int)
    | InvalidLocatorSyntax
    | InvalidLocator
    | ActionTimeout
    | BlockedNavigation
    | NavigationError
    | RuntimeEvalError
    | EngineCrash
    | Other

  function Status(e: EngineError): int {
    match e
    case ElementNotFound => 404
    case AttributeNotPresent => 404
    case LocatorAmbiguous(_) => 409
    case InvalidLocatorSyntax => 400
    case InvalidLocator => 422
    case ActionTimeout => 409
    case BlockedNavigation => 400
    case NavigationError => 502
    case RuntimeEvalError => 422
    case EngineCrash => 500
    case Other => 500
  }

  predicate IsFiveXx(e: EngineError) {
    e.EngineCrash?
  }

  /** How the engine coroutine of one action ended. */
  datatype Outcome = Success | Raised(error: EngineError) | Unexpected

  function OutcomeStatus(o: Outcome): int {
    match o
    case Success => 200
    case Raised(e) => Status(e)
    case Unexpected => 500
  }

  /** The idle clock is bumped on success and on a 404 only. */
  predicate BumpsIdleClock(o: Outcome) {
    o.Success? || (o.Raised? && Status(o.error) == 404)
  }

  predicate CountsAsError(o: Outcome) {
    o.Unexpected? || (o.Raised? && (IsFiveXx(o.error) || Status(o.error) >= 500))
  }

  /**
    The dedicated 5xx test is narrower than the status it stands for: of the classes that
    become a 5xx it names one, so the counter depends on the status test beside it.
  */
  lemma FiveXxTestIsNarrower(e: EngineError)
    ensures IsFiveXx(e) ==> Status(e) == 500
    ensures Status(e) >= 500 && !IsFiveXx(e) <==> e.NavigationError? || e.Other?
    ensures Status(e) in {400, 404, 409, 422, 500, 502}
  {
  }

  /** An action is counted as an error exactly when its caller sees a 5xx, and then it is no use. */
  lemma CountedIffServerError(o: Outcome)
    ensures CountsAsError(o) <==> OutcomeStatus(o) >= 500
    ensures BumpsIdleClock(o) <==> OutcomeStatus(o) in {200, 404}
    ensures !(CountsAsError(o) && BumpsIdleClock(o))
  {
  }

  /** Which status an error becomes, class by class. */
  lemma StatusIff(e: EngineError)
    ensures Status(e) == 404 <==> e.ElementNotFound? || e.AttributeNotPresent?
    ensures Status(e) == 409 <==> e.LocatorAmbiguous? || e.ActionTimeout?
    ensures Status(e) == 400 <==> e.InvalidLocatorSyntax? || e.BlockedNavigation?
    ensures Status(e) == 422 <==> e.InvalidLocator? || e.RuntimeEvalError?
    ensures Status(e) == 502 <==> e.NavigationError?
    ensures Status(e) == 500 <==> e.EngineCrash? || e.Other?
  {
  }
}
