/** Retrying a script evaluation through a navigation that destroys its execution context. */
module EvaluateSettled {
  import opened Text

  /** What one attempt does: a value, or a Playwright error with its message. */
  datatype Attempt = Value(value: string) | Error(message: string)

  /** `Unreachable` is the guard after the loop. */
  datatype Result = Returned(value: string) | Raised(message: string) | Unreachable

  predicate IsRace(a: Attempt) {
    a.Error? && Contains(Lower(a.message), "execution context was destroyed")
  }

  /** An error whose message says, in whatever case, that the execution context was destroyed. */
  ghost predicate DestroyedContext(a: Attempt) {
    a.Error? && exists before, after :: Lower(a.message) == before + "execution context was destroyed" + after
  }

  /** These, and no values or other errors, are tried again. */
  lemma OnlyRacesAreRetried(a: Attempt)
    ensures IsRace(a) <==> DestroyedContext(a)
  {
    if a.Error? {
      ContainsIff(Lower(a.message), "execution context was destroyed");
    }
  }

  function ResultOf(a: Attempt): Result {
    match a
    case Value(v) => Returned(v)
    case Error(m) => Raised(m)
  }

  /** Total back-off, in milliseconds, after k waits of 250, 500, 750, ... */
  function BackOff(k: nat): nat {
    if k == 0 then 0 else BackOff(k - 1) + 250 * k
  }

  lemma {:induction false} BackOffIsQuadratic(k: nat)
    ensures BackOff(k) == 125 * k * (k + 1)
  {
    if k > 0 {
      BackOffIsQuadratic(k - 1);
    }
  }

  /**
    `script(i)` is what attempt i would do.  The attempts made are the races at the front and
    the first attempt that is not one, cut off after `retries` repeats; the result is that of
    the last attempt made, and the waits in between add up to 125 k (k + 1) ms for k repeats.
    The guard after the loop is reached exactly when there is no attempt at all.
  */
  method Evaluate(script: nat -> Attempt, retries: int) returns (result: Result, attempts: nat, waited: nat)
    ensures result == Unreachable <==> retries < 0
    ensures retries >= 0 ==>
      && 1 <= attempts <= retries + 1
      && (forall i: nat :: i < attempts - 1 ==> DestroyedContext(script(i)))
      && (DestroyedContext(script(attempts - 1)) ==> attempts == retries + 1)
      && result == ResultOf(script(attempts - 1))
      && waited == 125 * (attempts - 1) * attempts
      && (retries == 3 ==> waited <= 1500)
  {
    attempts, waited := 0, 0;
    var attempt := 0;
    while attempt < retries + 1
      invariant 0 <= attempt && (retries >= 0 ==> attempt <= retries)
      invariant retries < 0 ==> attempt == 0
      invariant attempts == attempt && waited == BackOff(attempt)
      invariant forall i: nat :: i < attempt ==> DestroyedContext(script(i))
      decreases retries + 1 - attempt
    {
      var a := script(attempt);
      attempts := attempts + 1;
      BackOffIsQuadratic(attempt);
      OnlyRacesAreRetried(a);
      if a.Value? {
        return Returned(a.value), attempts, waited;
      }
      if !IsRace(a) || attempt == retries {
        return Raised(a.message), attempts, waited;
      }
      waited := waited + 250 * (attempt + 1);
      attempt := attempt + 1;
    }
    result := Unreachable;
  }
}
