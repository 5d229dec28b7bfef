/**
  The event loop as far as the manager is concerned: it resumes one task at a time, handing it
  the local variables it was suspended with.  Driven like this through any run of events, the
  manager object ends in exactly the state of the transition system, so whatever is proved of
  the reachable states of `Registry` holds of the object.
*/
module SessionRuns {
  import opened Common
  import opened AsyncLock
  import opened HttpErrors
  import R = Registry
  import RegistryTheorems
  import opened Sessions

  function Records(all: seq<SessionRecord>, sids: seq<nat>): (r: seq<SessionRecord>)
    requires R.Within(sids, |all|)
    ensures |r| == |sids| && forall i :: 0 <= i < |r| ==> r[i] == all[sids[i]]
  {
    seq(|sids|, i requires 0 <= i < |sids| => all[sids[i]])
  }

  lemma RecordsAreMine(m: SessionManager, sids: seq<nat>)
    requires m.Valid() && R.Within(sids, |m.issued|)
    ensures Sids(Records(m.issued, sids)) == sids
    ensures forall r :: r in Records(m.issued, sids) ==> m.Mine(r)
  {
  }

  /** Every record there is now was there before or is new. */
  twostate predicate Grown(all: seq<SessionRecord>, new now: seq<SessionRecord>) {
    forall r :: r in now ==> r in all || fresh(r)
  }

  /** A segment of a create. */
  method ResumeCreate(m: SessionManager, e: R.Event, s: R.State, all: seq<SessionRecord>)
    returns (now: seq<SessionRecord>)
    requires m.Valid() && s == m.Abs() && all == m.issued && R.Shape(s) && R.Enabled(s, e)
    requires e.ECreateCall? || e.EEvictFirstDone? || e.ELaunchFailed? || e.ERejectDone? || e.Tick?
    modifies m, m.issued
    ensures m.Valid() && m.Abs() == R.Apply(s, e) && now == m.issued && Grown(all, now)
  {
    now := all;
    match e {
      case Tick(dt) => m.Tick(dt);
      case ECreateCall(requested) => var _ := m.CreateCall(requested);
      case EEvictFirstDone(t) => m.EvictFirstDone(t, all[s.tasks[t].victim]);
      case ELaunchFailed(t) => m.LaunchFailed(t);
      case ERejectDone(t) => m.RejectDone(t);
    }
  }

  /** A segment of a create that may insert. */
  method ResumeInsert(m: SessionManager, e: R.Event, s: R.State, all: seq<SessionRecord>)
    returns (now: seq<SessionRecord>)
    requires m.Valid() && s == m.Abs() && all == m.issued && R.Shape(s) && R.Enabled(s, e)
    requires e.ELaunchDone? || e.EEvictSecondDone?
    modifies m, m.issued
    ensures m.Valid() && m.Abs() == R.Apply(s, e) && now == m.issued && Grown(all, now)
  {
    now := all;
    var pc := s.tasks[e.t];
    if e.ELaunchDone? {
      var a := m.LaunchDone(e.t, pc.requested, pc.evicted, s.nextEng);
      if a.Admitted? {
        now := all + [a.rec];
      }
    } else {
      var rec, _ := m.EvictSecondDone(e.t, all[pc.victim], pc.requested, pc.eng);
      now := all + [rec];
    }
  }

  /** A request comes in, or takes its place at a lock. */
  method ResumeWaiting(m: SessionManager, e: R.Event, s: R.State, all: seq<SessionRecord>)
    requires m.Valid() && s == m.Abs() && all == m.issued && R.Shape(s) && R.Enabled(s, e)
    requires e.ECall? || e.EAcquireRuns? || e.EWaiterRuns? || e.ETimesOut? || e.EGivesUp?
    modifies m, m.issued
    ensures m.Valid() && m.Abs() == R.Apply(s, e) && m.issued == all
  {
    if e.ECall? {
      var _ := m.Call(|s.tasks|, e.kind, e.sid);
    } else {
      var t, pc := e.t, s.tasks[e.t];
      match e {
        case EAcquireRuns(_) => var _ := m.AcquireRuns(t, pc.kind, all[pc.sid]);
        case EWaiterRuns(_) => m.WaiterRuns(t, pc.kind, all[pc.sid]);
        case ETimesOut(_) => m.TimesOut(t, pc.kind, all[pc.sid], pc.Waiting?);
        case EGivesUp(_) => m.GivesUp(t, pc.kind, all[pc.sid]);
      }
    }
  }

  /** The body of a request, or a reset. */
  method ResumeBody(m: SessionManager, e: R.Event, s: R.State, all: seq<SessionRecord>)
    requires m.Valid() && s == m.Abs() && all == m.issued && R.Shape(s) && R.Enabled(s, e)
    requires e.EBodyStarts? || e.EBodyEnds? || e.EResetCall? || e.EPurgeDone?
    modifies m, m.issued
    ensures m.Valid() && m.Abs() == R.Apply(s, e) && m.issued == all
  {
    match e {
      case EBodyStarts(t) => m.BodyStarts(t, s.tasks[t].kind, all[s.tasks[t].sid]);
      case EBodyEnds(t, o) => m.BodyEnds(t, s.tasks[t].kind, all[s.tasks[t].sid], o);
      case EResetCall => var _ := m.ResetCall(|s.tasks|);
      case EPurgeDone(t) =>
        RecordsAreMine(m, s.tasks[t].rest);
        m.PurgeDone(t, all[s.tasks[t].sid], Records(all, s.tasks[t].rest));
    }
  }

  method ResumeReaper(m: SessionManager, e: R.Event, s: R.State, all: seq<SessionRecord>)
    requires m.Valid() && s == m.Abs() && all == m.issued && R.Shape(s) && R.Enabled(s, e)
    requires e.EPassStarts? || e.EReaperLocks? || e.EReapDone? || e.ESweepDone?
    modifies m, m.issued
    ensures m.Valid() && m.Abs() == R.Apply(s, e) && m.issued == all
  {
    match e {
      case EPassStarts(alive) => var _, _ := m.PassStarts(alive);
      case EReaperLocks => m.ReaperLocks(all[s.reaper.claim.sid]);
      case EReapDone =>
        RecordsAreMine(m, s.reaper.rest);
        var _ := m.ReapDone(all[s.reaper.claim.sid], s.reaper.passNow, Records(all, s.reaper.rest));
      case ESweepDone =>
        RecordsAreMine(m, s.reaper.rest);
        var _ := m.SweepDone(Records(all, s.reaper.rest));
    }
  }

  /** Any enabled segment, run on the object, takes it to the state that `Registry` says. */
  method Resume(m: SessionManager, e: R.Event, s: R.State, all: seq<SessionRecord>)
    returns (now: seq<SessionRecord>)
    requires m.Valid() && s == m.Abs() && all == m.issued && R.Shape(s) && R.Enabled(s, e)
    modifies m, m.issued
    ensures m.Valid() && m.Abs() == R.Apply(s, e) && now == m.issued && Grown(all, now)
  {
    now := all;
    if e.ECreateCall? || e.EEvictFirstDone? || e.ELaunchFailed? || e.ERejectDone? || e.Tick? {
      now := ResumeCreate(m, e, s, all);
    } else if e.ELaunchDone? || e.EEvictSecondDone? {
      now := ResumeInsert(m, e, s, all);
    } else if e.ECall? || e.EAcquireRuns? || e.EWaiterRuns? || e.ETimesOut? || e.EGivesUp? {
      ResumeWaiting(m, e, s, all);
    } else if e.EBodyStarts? || e.EBodyEnds? || e.EResetCall? || e.EPurgeDone? {
      ResumeBody(m, e, s, all);
    } else {
      ResumeReaper(m, e, s, all);
    }
  }

  /** A new manager, driven through a whole run. */
  method Run(cfg: R.Config, start: real, es: seq<R.Event>) returns (m: SessionManager)
    requires R.Legal(R.Init(cfg, start), es)
    ensures fresh(m) && m.Valid() && m.Abs() == R.Exec(R.Init(cfg, start), es)
    ensures RegistryTheorems.Reachable(m.Abs())
  {
    m := new SessionManager(cfg.maxSessions, cfg.tombstoneMax, cfg.idleDefault, cfg.idleMin, cfg.idleMax, start);
    var s := R.Init(cfg, start);
    var all: seq<SessionRecord> := [];
    var i := 0;
    while i < |es|
      invariant 0 <= i <= |es| && fresh(m) && forall r :: r in all ==> fresh(r)
      invariant m.Valid() && s == m.Abs() && all == m.issued
      invariant R.Legal(s, es[i..]) && R.Exec(s, es[i..]) == R.Exec(R.Init(cfg, start), es)
    {
      assert es[i..][1..] == es[i + 1..];
      assert forall k :: 0 <= k < |all| ==> all[k] in all;
      all := Resume(m, es[i], s, all);
      s := R.Apply(s, es[i]);
      i := i + 1;
    }
  }
}
