/**
  The engine as the object it is: one method per stretch of code between two awaits, each
  proved to do what `Engine` says for that segment and to keep its invariant.  Where a
  `new_session` call is suspended is ghost state.
*/
module PlaywrightEngines {
  import opened AsyncLock
  import E = Engine

  class PlaywrightEngine {
    var started: bool
    var restarts: nat
    var launchLock: Lock
    var intentional: set<E.Browser>
    ghost var starts: nat
    ghost var tasks: seq<E.Pc>
    ghost var nextBrowser: E.Browser
    ghost var closeCalled: set<E.Browser>
    ghost var trace: seq<E.Sign>

    ghost function Abs(): E.State
      reads this
    {
      E.State(started, starts, launchLock, tasks, nextBrowser, intentional, restarts, closeCalled, trace)
    }

    ghost predicate Valid()
      reads this
    {
      E.Inv(Abs())
    }

    constructor ()
      ensures Valid() && Abs() == E.INIT
    {
      started, restarts, launchLock, intentional := false, 0, UNLOCKED, {};
      starts, tasks, nextBrowser, closeCalled, trace := 0, [], 0, {}, [];
      new;
      E.InitInv();
    }

    /** Alive means that Playwright runs; as soon as there has been a browser, it does. */
    predicate IsAlive()
      requires Valid()
      reads this
      ensures IsAlive() <==> starts == 1
      ensures nextBrowser > 0 ==> IsAlive()
    {
      started
    }

    method Inside(t: E.Task)
      requires t < |tasks|
      modifies this
      ensures Abs() == E.Inside(old(Abs()), t)
    {
      if started {
        launchLock := Release(launchLock);
        tasks := tasks[t := E.Launching];
      } else {
        tasks := tasks[t := E.Starting];
      }
    }

    /** The first segment of the new task t. */
    method NewSession(t: E.Task)
      requires Valid() && t == |tasks|
      modifies this
      ensures Valid() && Abs() == E.Apply(old(Abs()), E.ENewSession)
    {
      E.KeepsInv(Abs(), E.ENewSession);
      if started {
        tasks := tasks + [E.Launching];
      } else {
        var free := CanTake(launchLock);
        launchLock := Acquire(launchLock, E.Asker(t));
        tasks := tasks + [E.AtLock];
        if free {
          Inside(t);
        }
      }
    }

    method LockRuns(t: E.Task)
      requires Valid() && E.Enabled(Abs(), E.ELockRuns(t))
      modifies this
      ensures Valid() && Abs() == E.Apply(old(Abs()), E.ELockRuns(t))
    {
      E.KeepsInv(Abs(), E.ELockRuns(t));
      launchLock := Resume(launchLock, E.Asker(t));
      Inside(t);
    }

    method StartDone(ghost t: E.Task, ok: bool)
      requires Valid() && E.Enabled(Abs(), E.EStartDone(t, ok))
      modifies this
      ensures Valid() && Abs() == E.Apply(old(Abs()), E.EStartDone(t, ok))
    {
      E.KeepsInv(Abs(), E.EStartDone(t, ok));
      launchLock := Release(launchLock);
      if ok {
        started := true;
        starts := starts + 1;
      }
      tasks := tasks[t := if ok then E.Launching else E.Failed];
    }

    method NoteIntentionalClose(b: E.Browser)
      modifies this
      ensures Abs() == E.NoteIntentionalClose(old(Abs()), b)
    {
      intentional := intentional + {b};
      trace := trace + [E.Mark(b)];
    }

    /** `chromium.launch` has returned browser b, or has failed. */
    method LaunchDone(ghost t: E.Task, ok: bool, b: E.Browser)
      requires Valid() && t < |tasks| && tasks[t].Launching? && b == nextBrowser
      modifies this
      ensures Valid() && Abs() == E.Apply(old(Abs()), E.EStepDone(t, ok))
    {
      E.KeepsInv(Abs(), E.EStepDone(t, ok));
      nextBrowser := if ok then nextBrowser + 1 else nextBrowser;
      tasks := tasks[t := if ok then E.MakingContext(b) else E.Failed];
    }

    /** One of the later steps has returned or failed; only the last success hands the browser over. */
    method SetupDone(ghost t: E.Task, ok: bool, b: E.Browser)
      requires Valid() && t < |tasks| && tasks[t] in {E.MakingContext(b), E.MakingPage(b), E.Routing(b)}
      modifies this
      ensures Valid() && Abs() == E.Apply(old(Abs()), E.EStepDone(t, ok))
    {
      E.KeepsInv(Abs(), E.EStepDone(t, ok));
      ghost var goal := E.Apply(Abs(), E.EStepDone(t, ok));
      if ok {
        ghost var next := match tasks[t]
          case MakingContext(_) => E.MakingPage(b)
          case MakingPage(_) => E.Routing(b)
          case _ => E.Returned(b);
        assert goal == E.At(Abs(), t, next);
        tasks := tasks[t := next];
      } else {
        assert goal == E.Reclaim(Abs(), t, b);
        NoteIntentionalClose(b);
        closeCalled := closeCalled + {b};
        tasks := tasks[t := E.Reclaiming(b)];
      }
    }

    /** The close of a browser that was not handed over has returned; the call fails. */
    method ReclaimDone(ghost t: E.Task)
      requires Valid() && t < |tasks| && tasks[t].Reclaiming?
      modifies this
      ensures Valid() && Abs() == E.Apply(old(Abs()), E.EStepDone(t, true))
    {
      E.KeepsInv(Abs(), E.EStepDone(t, true));
      tasks := tasks[t := E.Failed];
    }

    method SessionClose(b: E.Browser)
      requires Valid() && E.Enabled(Abs(), E.ESessionClose(b))
      modifies this
      ensures Valid() && Abs() == E.Apply(old(Abs()), E.ESessionClose(b))
    {
      E.KeepsInv(Abs(), E.ESessionClose(b));
      NoteIntentionalClose(b);
      closeCalled := closeCalled + {b};
    }

    method OnDisconnected(b: E.Browser)
      requires Valid() && E.Enabled(Abs(), E.EDisconnected(b))
      modifies this
      ensures Valid() && Abs() == E.Apply(old(Abs()), E.EDisconnected(b))
      ensures E.Mark(b) !in old(trace) ==> restarts == old(restarts) + 1
    {
      E.KeepsInv(Abs(), E.EDisconnected(b));
      E.UnmarkedIsNotIntentional(trace, b);
      trace := trace + [E.Disconnect(b)];
      if b in intentional {
        intentional := intentional - {b};
        return;
      }
      restarts := restarts + 1;
    }
  }
}
