/**
  The session manager as the object it is: a dict of records updated in place, an ordered
  dict of tombstones, and counters.  One method per stretch of code between two awaits; each
  is proved to do what the transition system of `Registry` says for that segment.

  Where a task is suspended is ghost state: the manager's code never looks at it.  What a
  suspended task remembers in its local variables is passed to the method that resumes it.
*/
module Sessions {
  import opened Common
  import opened AsyncLock
  import opened HttpErrors
  import R = Registry

  class SessionRecord {
    const sid: nat
    const engineSession: nat
    const idleTimeout: int
    var lastUsed: real
    var closing: bool
    var lock: Lock

    constructor (sid: nat, engineSession: nat, idleTimeout: int, now: real)
      ensures this.sid == sid && Value() == R.Rec(engineSession, idleTimeout, now, false, UNLOCKED)
    {
      this.sid, this.engineSession, this.idleTimeout := sid, engineSession, idleTimeout;
      this.lastUsed, this.closing, this.lock := now, false, UNLOCKED;
    }

    ghost function Value(): R.Rec
      reads this
    {
      R.Rec(engineSession, idleTimeout, lastUsed, closing, lock)
    }
  }

  datatype Lookup = Found(rec: SessionRecord) | Expired(idleTimeout: int) | Unknown

  /** How the first segment of `create` ends. */
  datatype Admission = Refused | Evict(victim: SessionRecord) | Launch

  /** How `create` goes on once the engine session is there. */
  datatype Launched = Admitted(rec: SessionRecord, reported: Option<nat>) | EvictFor(victim: SessionRecord) | Reject

  lemma LaunchDoneSettles(s: R.State, s1: R.State, t: nat, requested: Option<int>, evicted: Option<nat>, evictions: nat)
    requires t < |s.tasks| && s.tasks[t] == R.Launching(requested, evicted, evictions)
    requires s1 == s.(nextEng := s.nextEng + 1)
    ensures R.LaunchDone(s, t) == R.Settle(s1, t, requested, evicted, s.nextEng, evictions)
  {
  }

  lemma EvictSecondDoneAdmits(s: R.State, s1: R.State, t: nat)
    requires t < |s.tasks| && s.tasks[t].EvictSecond?
    requires var popped := R.BumpEvicted(R.Pop(s, s.tasks[t].victim));
      var late := if s.tasks[t].victim in s.live then 0 else 1;
      s1 == popped.(ledger := popped.ledger.(lateInserts := popped.ledger.lateInserts + late))
    ensures s1.tasks == s.tasks && var pc := s.tasks[t];
      R.EvictSecondDone(s, t) == R.Admit(s1, t, pc.requested, pc.eng, Some(pc.victim), pc.evictions + 1)
  {
  }

  /** What the end of a body does before the lock is released. */
  ghost function Settled(s: R.State, kind: R.Kind, sid: nat, o: Outcome): R.State
    requires sid < |s.recs|
  {
    match kind
    case Action => R.AccountFor(s, sid, o)
    case Delete => R.BumpDeleted(R.Pop(s, sid))
    case Probe => s
  }

  lemma BodyEndsLetsGo(s: R.State, t: nat, o: Outcome)
    requires t < |s.tasks| && s.tasks[t].Body? && s.tasks[t].sid < |s.recs|
    ensures var kind, sid := s.tasks[t].kind, s.tasks[t].sid;
      var s1 := Settled(s, kind, sid, o);
      && s1.tasks == s.tasks && |s1.recs| == |s.recs|
      && R.BodyEnds(s, t, o) == R.WithTask(R.WithLock(s1, sid, Release(s1.recs[sid].lock)), t, R.Ended)
  {
  }

  class SessionManager {
    const maxSessions: nat
    const tombstoneMax: nat
    const idleDefault: int
    const idleMin: int
    const idleMax: int

    var records: map<nat, SessionRecord>
    var tombstones: seq<(nat, int)>
    var createdTotal: nat
    var reapedTotal: nat
    var deletedTotal: nat
    var rejectedTotal: nat
    var evictedTotal: nat
    var actionsTotal: nat
    var actionErrorsTotal: nat

    /** The reading of the injected clock, and the next id the id source will hand out. */
    var clock: real
    var nextSid: nat

    ghost var issued: seq<SessionRecord>
    ghost var tasks: seq<R.Pc>
    ghost var reaper: R.ReaperPc
    ghost var nextEng: nat
    ghost var closed: set<nat>
    ghost var reapLog: seq<R.Sighting>
    ghost var ledger: R.Ledger

    ghost predicate Valid()
      reads `issued, `records, `nextSid
    {
      && nextSid == |issued|
      && (forall i :: 0 <= i < |issued| ==> issued[i].sid == i)
      && (forall k :: k in records ==> k < |issued| && records[k] == issued[k])
    }

    ghost function Abs(): R.State
      reads this, issued
    {
      R.State(R.Config(maxSessions, tombstoneMax, idleDefault, idleMin, idleMax), clock, Values(issued), records.Keys,
              tombstones,
              R.Totals(createdTotal, reapedTotal, deletedTotal, rejectedTotal, evictedTotal, actionsTotal,
                       actionErrorsTotal),
              tasks, reaper, nextEng, closed, reapLog, ledger)
    }

    ghost predicate Mine(rec: SessionRecord)
      reads `issued
    {
      rec.sid < |issued| && issued[rec.sid] == rec
    }

    constructor (maxSessions: nat, tombstoneMax: nat, idleDefault: int, idleMin: int, idleMax: int, now: real)
      ensures Valid() && fresh(issued)
      ensures Abs() == R.Init(R.Config(maxSessions, tombstoneMax, idleDefault, idleMin, idleMax), now)
    {
      this.maxSessions, this.tombstoneMax := maxSessions, tombstoneMax;
      this.idleDefault, this.idleMin, this.idleMax := idleDefault, idleMin, idleMax;
      records, tombstones := map[], [];
      createdTotal, reapedTotal, deletedTotal, rejectedTotal, evictedTotal := 0, 0, 0, 0, 0;
      actionsTotal, actionErrorsTotal := 0, 0;
      clock, nextSid := now, 0;
      issued, tasks, reaper, nextEng, closed, reapLog := [], [], R.Asleep, 0, {}, [];
      ledger := R.Ledger(0, 0, 0);
    }

    method Tick(dt: real)
      requires Valid() && dt >= 0.0
      modifies this`clock
      ensures Valid() && Abs() == old(Abs()).(now := old(clock) + dt)
    {
      clock := clock + dt;
      assert Values(issued) == old(Values(issued));
    }

    // ---- reading ---------------------------------------------------------------------

    method FindTombstone(sid: nat) returns (r: Option<int>)
      ensures r == R.TombstoneOf(tombstones, sid)
    {
      var i := 0;
      while i < |tombstones|
        invariant 0 <= i <= |tombstones|
        invariant R.TombstoneOf(tombstones, sid) == R.TombstoneOf(tombstones[i..], sid)
      {
        if tombstones[i].0 == sid {
          return Some(tombstones[i].1);
        }
        i := i + 1;
      }
      r := None;
    }

    method Get(sid: nat) returns (a: Lookup)
      requires Valid()
      ensures match R.Get(Abs(), sid)
              case Found => a.Found? && Mine(a.rec) && a.rec.sid == sid
              case Expired(t) => a == Expired(t)
              case Unknown => a == Unknown
    {
      if sid in records && !records[sid].closing {
        a := Found(records[sid]);
      } else {
        var t := FindTombstone(sid);
        a := if t.Some? then Expired(t.value) else Unknown;
      }
    }

    /** The dict's values in insertion order. */
    method Snapshot() returns (order: seq<SessionRecord>)
      requires Valid()
      ensures Sids(order) == R.Snapshot(Abs())
      ensures forall r :: r in order ==> Mine(r)
    {
      order := [];
      for i := 0 to nextSid
        invariant Sids(order) == R.OrderedUpTo(records.Keys, i)
        invariant forall r :: r in order ==> Mine(r)
      {
        if i in records {
          assert Sids(order + [records[i]]) == Sids(order) + [i];
          order := order + [records[i]];
        }
      }
    }

    /** `list`: exactly the sessions `get` would find, oldest first. */
    method List() returns (open: seq<SessionRecord>)
      requires Valid()
      ensures forall r :: r in open ==> Mine(r)
      ensures forall sid: nat :: sid in Sids(open) <==> R.Get(Abs(), sid) == R.Found
      ensures forall i, j :: 0 <= i < j < |open| ==> open[i].sid < open[j].sid
    {
      open := [];
      for i := 0 to nextSid
        invariant forall r :: r in open ==> Mine(r)
        invariant forall sid: nat :: sid in Sids(open) <==> sid < i && R.Get(Abs(), sid) == R.Found
        invariant forall j :: 0 <= j < |open| ==> open[j].sid < i
        invariant forall j, k :: 0 <= j < k < |open| ==> open[j].sid < open[k].sid
      {
        if i in records && !records[i].closing {
          assert Sids(open + [records[i]]) == Sids(open) + [i];
          open := open + [records[i]];
        }
      }
    }

    predicate Evictable(rec: SessionRecord)
      reads this, rec
    {
      !rec.closing && !Locked(rec.lock) && clock - rec.lastUsed >= R.EVICT_WINDOW
    }

    method OldestEvictableIdle() returns (best: SessionRecord?)
      requires Valid()
      ensures best == null <==> R.Oldest(Abs()).None?
      ensures best != null ==> Mine(best) && best.sid in records && R.Oldest(Abs()) == Some(best.sid)
    {
      best := null;
      for i := 0 to nextSid
        invariant best == null <==> R.OldestAmong(Abs(), i).None?
        invariant best != null ==> Mine(best) && best.sid in records && R.OldestAmong(Abs(), i) == Some(best.sid)
      {
        if i in records && Evictable(records[i]) {
          if best == null || records[i].lastUsed < best.lastUsed {
            best := records[i];
          }
        }
      }
    }

    function EffectiveIdleTimeout(requested: Option<int>): (timeout: int)
      ensures requested == None ==> timeout == idleDefault
      ensures requested.Some? && idleMin <= requested.value <= idleMax ==> timeout == requested.value
      ensures requested.Some? && requested.value < idleMin ==> timeout == idleMin
      ensures requested.Some? && requested.value > idleMax >= idleMin ==> timeout == idleMax
    {
      match requested
      case None => idleDefault
      case Some(r) =>
        var capped := if r < idleMax then r else idleMax;
        if capped < idleMin then idleMin else capped
    }

    // ---- where tasks are suspended ------------------------------------------------------

    ghost method Spawn(pc: R.Pc)
      requires Valid()
      modifies `tasks
      ensures Valid() && Abs() == R.Spawn(old(Abs()), pc)
    {
      tasks := tasks + [pc];
    }

    ghost method Advance(t: nat, pc: R.Pc)
      requires Valid() && t < |tasks|
      modifies `tasks
      ensures Valid() && Abs() == R.WithTask(old(Abs()), t, pc)
    {
      tasks := tasks[t := pc];
    }

    // ---- building blocks ---------------------------------------------------------------

    method Touch(rec: SessionRecord)
      requires Valid() && Mine(rec)
      modifies rec`lastUsed
      ensures Valid() && Abs() == R.Touch(old(Abs()), rec.sid)
    {
      rec.lastUsed := clock;
      assert Values(issued) == old(Values(issued))[rec.sid := rec.Value()];
    }

    /** Hides the record and calls `close` on its engine session. */
    method BeginClose(rec: SessionRecord)
      requires Valid() && Mine(rec)
      modifies this`closed, rec`closing
      ensures Valid() && Abs() == R.BeginClose(old(Abs()), rec.sid)
    {
      rec.closing := true;
      closed := closed + {rec.engineSession};
      assert Values(issued) == old(Values(issued))[rec.sid := rec.Value()];
    }

    method SetLock(rec: SessionRecord, l: Lock)
      requires Valid() && Mine(rec)
      modifies rec`lock
      ensures Valid() && Abs() == R.WithLock(old(Abs()), rec.sid, l)
    {
      rec.lock := l;
      assert Values(issued) == old(Values(issued))[rec.sid := rec.Value()];
    }

    method RemoveKey(sid: nat)
      requires Valid()
      modifies `records
      ensures Valid() && records.Keys == old(records.Keys) - {sid}
    {
      records := map k | k in records && k != sid :: records[k];
    }

    /** `pop(sid, None)`: no complaint when somebody else has removed the record. */
    method PopRecord(sid: nat)
      requires Valid()
      modifies `records, `ledger
      ensures Valid() && Abs() == R.Pop(old(Abs()), sid)
    {
      if sid !in records {
        ledger := ledger.(noopPops := ledger.noopPops + 1);
      }
      RemoveKey(sid);
      assert sid !in old(records.Keys) ==> records.Keys == old(records.Keys);
    }

    method TombstoneAdd(sid: nat, timeout: int)
      modifies this`tombstones
      ensures tombstones == R.TombstoneAdd(old(tombstones), sid, timeout, tombstoneMax)
    {
      tombstones := R.Without(tombstones, sid) + [(sid, timeout)];
      ghost var all := tombstones;
      while |tombstones| > tombstoneMax
        invariant |tombstones| <= |all| && tombstones == all[|all| - |tombstones|..]
        invariant |tombstones| >= tombstoneMax || tombstones == all
        decreases |tombstones|
      {
        tombstones := tombstones[1..];
      }
    }

    method Register(rec: SessionRecord)
      requires Valid() && rec.sid == nextSid
      modifies `records, `issued, `nextSid, `createdTotal
      ensures Valid() && issued == old(issued) + [rec]
      ensures Values(issued) == old(Values(issued)) + [rec.Value()]
      ensures records.Keys == old(records.Keys) + {rec.sid}
      ensures nextSid == old(nextSid) + 1 && createdTotal == old(createdTotal) + 1
    {
      records := records[nextSid := rec];
      issued := issued + [rec];
      nextSid := nextSid + 1;
      createdTotal := createdTotal + 1;
    }

    method Insert(requested: Option<int>, engineSession: nat) returns (rec: SessionRecord)
      requires Valid()
      modifies `records, `issued, `nextSid, `createdTotal
      ensures Valid() && fresh(rec) && issued == old(issued) + [rec] && rec.sid == |old(issued)|
      ensures Abs() == R.Insert(old(Abs()), requested, engineSession)
    {
      ghost var before := Abs();
      var timeout := EffectiveIdleTimeout(requested);
      assert timeout == R.EffectiveTimeout(before.cfg, requested);
      rec := new SessionRecord(nextSid, engineSession, timeout, clock);
      assert Values(issued) == old(Values(issued));
      Register(rec);
      assert Abs().recs == before.recs + [R.Rec(engineSession, timeout, before.now, false, UNLOCKED)];
    }

    // ---- create --------------------------------------------------------------------------

    method FirstPass(ghost requested: Option<int>) returns (victim: SessionRecord?)
      requires Valid()
      modifies `rejectedTotal, `closed, `tasks, issued
      ensures Valid() && Abs() == R.FirstPass(old(Abs()), requested)
      ensures victim == null ==> tasks == old(tasks) + [R.Failed(0)]
      ensures victim != null ==> Mine(victim) && tasks == old(tasks) + [R.EvictFirst(victim.sid, requested)]
    {
      ghost var s0 := Abs();
      victim := OldestEvictableIdle();
      if victim == null {
        assert R.FirstPass(s0, requested) == R.Spawn(R.BumpRejected(s0), R.Failed(0));
        rejectedTotal := rejectedTotal + 1;
        Spawn(R.Failed(0));
      } else {
        assert R.FirstPass(s0, requested) == R.Spawn(R.BeginClose(s0, victim.sid), R.EvictFirst(victim.sid, requested));
        BeginClose(victim);
        Spawn(R.EvictFirst(victim.sid, requested));
      }
    }

    method CreateCall(requested: Option<int>) returns (a: Admission)
      requires Valid()
      modifies this, issued
      ensures Valid() && issued == old(issued) && Abs() == R.CreateCall(old(Abs()), requested)
      ensures match a
              case Refused => tasks == old(tasks) + [R.Failed(0)]
              case Evict(victim) => Mine(victim) && tasks == old(tasks) + [R.EvictFirst(victim.sid, requested)]
              case Launch => tasks == old(tasks) + [R.Launching(requested, None, 0)]
    {
      if |records| < maxSessions {
        Spawn(R.Launching(requested, None, 0));
        a := Launch;
      } else {
        var victim := FirstPass(requested);
        a := if victim == null then Refused else Evict(victim);
      }
    }

    method EvictFirstDone(ghost t: nat, victim: SessionRecord)
      requires Valid() && Mine(victim)
      requires t < |tasks| && tasks[t].EvictFirst? && tasks[t].victim == victim.sid
      modifies this
      ensures Valid() && issued == old(issued) && Abs() == R.EvictFirstDone(old(Abs()), t)
    {
      PopRecord(victim.sid);
      evictedTotal := evictedTotal + 1;
      Advance(t, R.Launching(tasks[t].requested, Some(victim.sid), 1));
    }

    /** The insert that ends a `create`. */
    method Admit(ghost t: nat, requested: Option<int>, engineSession: nat, ghost reported: Option<nat>,
                 ghost evictions: nat)
      returns (rec: SessionRecord)
      requires Valid() && t < |tasks|
      modifies `records, `issued, `nextSid, `createdTotal, `tasks
      ensures Valid() && issued == old(issued) + [rec] && fresh(rec)
      ensures Abs() == R.Admit(old(Abs()), t, requested, engineSession, reported, evictions)
      ensures tasks[t] == R.Created(rec.sid, reported, evictions)
    {
      rec := Insert(requested, engineSession);
      Advance(t, R.Created(rec.sid, reported, evictions));
    }

    /** The second eviction pass, or the start of the refusal when it finds nobody. */
    method SecondPass(ghost t: nat, ghost requested: Option<int>, engineSession: nat, ghost earlier: Option<nat>,
                      ghost evictions: nat)
      returns (victim: SessionRecord?)
      requires Valid() && t < |tasks|
      modifies `closed, `tasks, issued
      ensures Valid() && Abs() == R.SecondPass(old(Abs()), t, requested, earlier, engineSession, evictions)
      ensures victim == null ==> tasks[t] == R.Rejecting(engineSession, evictions)
      ensures victim != null ==> Mine(victim)
      ensures victim != null ==> tasks[t] == R.EvictSecond(victim.sid, requested, earlier, engineSession, evictions)
    {
      ghost var s0, goal := Abs(), R.SecondPass(Abs(), t, requested, earlier, engineSession, evictions);
      victim := OldestEvictableIdle();
      if victim == null {
        ghost var pc := R.Rejecting(engineSession, evictions);
        assert goal == R.WithTask(R.CallClose(s0, engineSession), t, pc);
        closed := closed + {engineSession};
        Advance(t, pc);
      } else {
        ghost var pc := R.EvictSecond(victim.sid, requested, earlier, engineSession, evictions);
        assert goal == R.WithTask(R.BeginClose(s0, victim.sid), t, pc);
        BeginClose(victim);
        Advance(t, pc);
      }
    }

    method Settle(ghost t: nat, requested: Option<int>, evicted: Option<nat>, engineSession: nat, ghost evictions: nat)
      returns (a: Launched)
      requires Valid() && t < |tasks|
      modifies `records, `issued, `nextSid, `createdTotal, `closed, `tasks, issued
      ensures Valid() && Abs() == R.Settle(old(Abs()), t, requested, evicted, engineSession, evictions)
      ensures match a
              case Admitted(rec, reported) => issued == old(issued) + [rec] && fresh(rec)
                && tasks[t] == R.Created(rec.sid, reported, evictions)
              case EvictFor(victim) => issued == old(issued) && Mine(victim)
                && tasks[t] == R.EvictSecond(victim.sid, requested, evicted, engineSession, evictions)
              case Reject => issued == old(issued) && tasks[t] == R.Rejecting(engineSession, evictions)
    {
      assert |records| == |records.Keys|;
      if |records| < maxSessions {
        var rec := Admit(t, requested, engineSession, evicted, evictions);
        a := Admitted(rec, evicted);
      } else {
        var victim := SecondPass(t, requested, engineSession, evicted, evictions);
        a := if victim == null then Reject else EvictFor(victim);
      }
    }

    /** The engine hands over a session it has never handed over before. */
    ghost method HandOver()
      requires Valid()
      modifies this`nextEng
      ensures Valid() && Abs() == old(Abs()).(nextEng := old(nextEng) + 1)
    {
      nextEng := nextEng + 1;
      assert Values(issued) == old(Values(issued));
    }

    method LaunchDone(ghost t: nat, requested: Option<int>, evicted: Option<nat>, engineSession: nat)
      returns (a: Launched)
      requires Valid() && engineSession == nextEng
      requires t < |tasks| && tasks[t].Launching? && tasks[t].requested == requested && tasks[t].evicted == evicted
      modifies this, issued
      ensures Valid() && Abs() == R.LaunchDone(old(Abs()), t)
      ensures var evictions := old(tasks[t].evictions);
              match a
              case Admitted(rec, reported) => issued == old(issued) + [rec] && fresh(rec)
                && tasks[t] == R.Created(rec.sid, reported, evictions)
              case EvictFor(victim) => issued == old(issued) && Mine(victim)
                && tasks[t] == R.EvictSecond(victim.sid, requested, evicted, engineSession, evictions)
              case Reject => issued == old(issued) && tasks[t] == R.Rejecting(engineSession, evictions)
    {
      ghost var s0, evictions := Abs(), tasks[t].evictions;
      HandOver();
      LaunchDoneSettles(s0, Abs(), t, requested, evicted, evictions);
      a := Settle(t, requested, evicted, engineSession, evictions);
    }

    method LaunchFailed(ghost t: nat)
      requires Valid() && t < |tasks| && tasks[t].Launching?
      modifies this`tasks
      ensures Valid() && Abs() == R.LaunchFailed(old(Abs()), t)
    {
      Advance(t, R.Failed(tasks[t].evictions));
    }

    method RejectDone(ghost t: nat)
      requires Valid() && t < |tasks| && tasks[t].Rejecting?
      modifies this`tasks, this`rejectedTotal
      ensures Valid() && Abs() == R.RejectDone(old(Abs()), t)
    {
      rejectedTotal := rejectedTotal + 1;
      Advance(t, R.Failed(tasks[t].evictions));
    }

    method EvictSecondDone(ghost t: nat, victim: SessionRecord, requested: Option<int>, engineSession: nat)
      returns (rec: SessionRecord, reported: Option<nat>)
      requires Valid() && Mine(victim) && t < |tasks| && tasks[t].EvictSecond?
      requires tasks[t].victim == victim.sid && tasks[t].requested == requested && tasks[t].eng == engineSession
      modifies this
      ensures Valid() && issued == old(issued) + [rec] && fresh(rec) && Abs() == R.EvictSecondDone(old(Abs()), t)
      ensures tasks[t] == R.Created(rec.sid, reported, tasks[t].evictions) && reported == Some(victim.sid)
    {
      ghost var s0, late := Abs(), if victim.sid in records then 0 else 1;
      PopRecord(victim.sid);
      evictedTotal := evictedTotal + 1;
      ledger := ledger.(lateInserts := ledger.lateInserts + late);
      EvictSecondDoneAdmits(s0, Abs(), t);
      reported := Some(victim.sid);
      rec := Admit(t, requested, engineSession, reported, s0.tasks[t].evictions + 1);
    }

    // ---- requests that take the session lock ---------------------------------------------

    /** `acquire`: says whether the lock was free for the taking. */
    method Enter(t: nat, kind: R.Kind, rec: SessionRecord) returns (took: bool)
      requires Valid() && Mine(rec) && t < |tasks|
      modifies `tasks, rec`lock
      ensures Valid() && Abs() == R.Enter(old(Abs()), t, kind, rec.sid)
      ensures took == CanTake(old(rec.lock))
    {
      took := CanTake(rec.lock);
      SetLock(rec, Acquire(rec.lock, R.Asker(t, kind)));
      Advance(t, if !took then R.Waiting(kind, rec.sid)
                 else if kind == R.Probe then R.Body(kind, rec.sid) else R.Holding(kind, rec.sid));
    }

    /** The new task t of an action, a delete or a probe looks its session up. */
    method Call(t: nat, kind: R.Kind, sid: nat) returns (a: Lookup)
      requires Valid() && t == |tasks|
      modifies `tasks, issued
      ensures Valid() && issued == old(issued) && Abs() == R.Call(old(Abs()), kind, sid)
      ensures a.Found? ==> Mine(a.rec) && a.rec.sid == sid
    {
      ghost var s0 := Abs();
      a := Get(sid);
      if !a.Found? {
        Spawn(R.Ended);
      } else if kind != R.Probe {
        Spawn(R.Got(kind, sid));
      } else {
        Spawn(R.Ended);
        if !Locked(a.rec.lock) {
          var took := Enter(t, kind, a.rec);
        }
      }
    }

    method AcquireRuns(t: nat, kind: R.Kind, rec: SessionRecord) returns (took: bool)
      requires Valid() && Mine(rec) && t < |tasks| && tasks[t] == R.Got(kind, rec.sid)
      modifies `tasks, rec`lock
      ensures Valid() && Abs() == R.Enter(old(Abs()), t, kind, rec.sid)
    {
      took := Enter(t, kind, rec);
    }

    method WaiterRuns(t: nat, kind: R.Kind, rec: SessionRecord)
      requires Valid() && Mine(rec) && t < |tasks| && tasks[t] == R.Waiting(kind, rec.sid)
      requires IsWaiting(rec.lock, R.Asker(t, kind), Woken)
      modifies `tasks, rec`lock
      ensures Valid() && Abs() == R.WaiterRuns(old(Abs()), t)
    {
      SetLock(rec, Resume(rec.lock, R.Asker(t, kind)));
      Advance(t, if kind == R.Probe then R.Body(kind, rec.sid) else R.Holding(kind, rec.sid));
    }

    method TimesOut(t: nat, kind: R.Kind, rec: SessionRecord, queued: bool)
      requires Valid() && Mine(rec) && t < |tasks| && kind != R.Probe
      requires tasks[t] == if queued then R.Waiting(kind, rec.sid) else R.Got(kind, rec.sid)
      requires queued ==> IsWaiting(rec.lock, R.Asker(t, kind), Pending)
      modifies `tasks, rec`lock
      ensures Valid() && Abs() == R.TimesOut(old(Abs()), t)
    {
      if queued {
        SetLock(rec, Cancel(rec.lock, R.Asker(t, kind)));
      } else {
        Advance(t, R.Ended);
      }
    }

    method GivesUp(t: nat, kind: R.Kind, rec: SessionRecord)
      requires Valid() && Mine(rec) && t < |tasks| && tasks[t] == R.Waiting(kind, rec.sid)
      requires R.Asker(t, kind) in Queue(rec.lock)
      modifies `tasks, rec`lock
      ensures Valid() && Abs() == R.GivesUp(old(Abs()), t)
    {
      SetLock(rec, Abandon(rec.lock, R.Asker(t, kind)));
      Advance(t, R.Ended);
    }

    method BodyStarts(ghost t: nat, kind: R.Kind, rec: SessionRecord)
      requires Valid() && Mine(rec) && t < |tasks| && tasks[t] == R.Holding(kind, rec.sid)
      modifies `tasks, `closed, `actionsTotal, rec`closing
      ensures Valid() && Abs() == R.BodyStarts(old(Abs()), t)
    {
      if kind == R.Delete {
        BeginClose(rec);
      } else {
        actionsTotal := actionsTotal + 1;
      }
      Advance(t, R.Body(kind, rec.sid));
    }

    method AccountFor(rec: SessionRecord, o: Outcome)
      requires Valid() && Mine(rec)
      modifies `actionErrorsTotal, rec`lastUsed
      ensures Valid() && Abs() == R.AccountFor(old(Abs()), rec.sid, o)
    {
      if BumpsIdleClock(o) {
        Touch(rec);
      }
      if CountsAsError(o) {
        actionErrorsTotal := actionErrorsTotal + 1;
      }
    }

    method BodyEnds(ghost t: nat, kind: R.Kind, rec: SessionRecord, o: Outcome)
      requires Valid() && Mine(rec) && t < |tasks| && tasks[t] == R.Body(kind, rec.sid)
      modifies this, rec
      ensures Valid() && issued == old(issued) && Abs() == R.BodyEnds(old(Abs()), t, o)
    {
      BodyEndsLetsGo(Abs(), t, o);
      ghost var settled := Settled(Abs(), kind, rec.sid, o);
      match kind {
        case Action => AccountFor(rec, o);
        case Delete =>
          PopRecord(rec.sid);
          deletedTotal := deletedTotal + 1;
        case Probe =>
      }
      assert Abs() == settled;
      SetLock(rec, Release(rec.lock));
      Advance(t, R.Ended);
    }

    // ---- the operator's reset --------------------------------------------------------------

    method PurgeNext(ghost t: nat, todo: seq<SessionRecord>)
      requires Valid() && t < |tasks| && forall r :: r in todo ==> Mine(r)
      modifies `tasks, `closed, issued
      ensures Valid() && R.Within(Sids(todo), |issued|) && Abs() == R.PurgeNext(old(Abs()), t, Sids(todo))
    {
      assert forall i :: 0 <= i < |todo| ==> todo[i] in todo;
      if |todo| == 0 {
        Advance(t, R.Ended);
      } else {
        BeginClose(todo[0]);
        assert Sids(todo[1..]) == Sids(todo)[1..];
        Advance(t, R.Purging(todo[0].sid, Sids(todo[1..])));
      }
    }

    method ResetCall(ghost t: nat) returns (todo: seq<SessionRecord>)
      requires Valid() && t == |tasks|
      modifies `tasks, `closed, issued
      ensures Valid() && R.Within(R.Snapshot(old(Abs())), |old(issued)|) && Abs() == R.ResetCall(old(Abs()))
      ensures Sids(todo) == R.Snapshot(old(Abs())) && forall r :: r in todo ==> Mine(r)
    {
      todo := Snapshot();
      Spawn(R.Ended);
      PurgeNext(t, todo);
    }

    method PurgeDone(ghost t: nat, rec: SessionRecord, rest: seq<SessionRecord>)
      requires Valid() && Mine(rec) && t < |tasks| && tasks[t] == R.Purging(rec.sid, Sids(rest))
      requires forall r :: r in rest ==> Mine(r)
      modifies this, issued
      ensures Valid() && issued == old(issued) && R.Within(Sids(rest), |issued|)
      ensures Abs() == R.PurgeDone(old(Abs()), t)
    {
      PopRecord(rec.sid);
      deletedTotal := deletedTotal + 1;
      PurgeNext(t, rest);
    }

    // ---- the reaper ------------------------------------------------------------------------

    predicate Reapable(rec: SessionRecord, passNow: real)
      reads rec
    {
      !rec.closing && !Locked(rec.lock) && passNow - rec.lastUsed > rec.idleTimeout as real
    }

    method Claim(rec: SessionRecord, ghost passNow: real, ghost rest: seq<nat>) returns (took: bool)
      requires Valid() && Mine(rec)
      modifies `reaper, `closed, rec`closing, rec`lock
      ensures Valid() && Abs() == R.Claim(old(Abs()), passNow, rec.sid, rest)
      ensures rec.closing
    {
      ghost var sight := R.Sighting(rec.sid, clock, rec.lastUsed);
      took := CanTake(rec.lock);
      rec.closing := true;
      rec.lock := Acquire(rec.lock, Reaper);
      assert Values(issued) == old(Values(issued))[rec.sid := rec.Value()];
      if took {
        closed := closed + {rec.engineSession};
        reaper := R.Teardown(sight, passNow, rest);
      } else {
        reaper := R.LockWait(sight, passNow, rest);
      }
    }

    /** The loop of a pass over the rest of its snapshot, up to the next session it claims. */
    method Scan(passNow: real, todo: seq<SessionRecord>) returns (k: nat)
      requires Valid() && forall r :: r in todo ==> Mine(r)
      modifies `reaper, `closed, issued
      ensures Valid() && R.Within(Sids(todo), |issued|) && Abs() == R.Scan(old(Abs()), passNow, Sids(todo))
      ensures k <= |todo| && (k < |todo| ==> !old(todo[k].closing) && todo[k].closing)
    {
      ghost var s0 := Abs();
      assert forall i :: 0 <= i < |todo| ==> todo[i] in todo;
      k := 0;
      while k < |todo|
        invariant k <= |todo| && Abs() == s0
        invariant R.Within(Sids(todo), |issued|) && R.Within(Sids(todo)[k..], |issued|)
        invariant R.Scan(s0, passNow, Sids(todo)) == R.Scan(s0, passNow, Sids(todo)[k..])
        invariant forall r :: r in todo ==> Mine(r) && unchanged(r)
      {
        assert Sids(todo)[k..][1..] == Sids(todo)[k + 1..];
        if Reapable(todo[k], passNow) {
          var took := Claim(todo[k], passNow, Sids(todo)[k + 1..]);
          return;
        }
        k := k + 1;
      }
      reaper := R.Asleep;
    }

    method DropRecord(rec: SessionRecord, ghost rest: seq<nat>)
      requires Valid() && Mine(rec) && rec.sid in records
      modifies `reaper, `closed, `records, `ledger
      ensures Valid() && Abs() == R.Drop(old(Abs()), rec.sid, rest)
    {
      ghost var goal := R.Drop(Abs(), rec.sid, rest);
      RemoveKey(rec.sid);
      closed := closed + {rec.engineSession};
      ledger := ledger.(dropped := ledger.dropped + 1);
      reaper := R.Sweeping(rest);
      assert Values(issued) == goal.recs;
    }

    /** A dead engine: drop what is left of the snapshot, up to the next engine close. */
    method Sweep(todo: seq<SessionRecord>) returns (k: nat)
      requires Valid() && forall r :: r in todo ==> Mine(r)
      modifies `reaper, `closed, `records, `ledger
      ensures Valid() && R.Within(Sids(todo), |issued|) && Abs() == R.Sweep(old(Abs()), Sids(todo))
      ensures k <= |todo|
    {
      ghost var s0 := Abs();
      assert forall i :: 0 <= i < |todo| ==> todo[i] in todo;
      k := 0;
      while k < |todo|
        invariant k <= |todo| && Valid() && Abs() == s0
        invariant R.Within(Sids(todo), |issued|) && R.Within(Sids(todo)[k..], |issued|)
        invariant R.Sweep(s0, Sids(todo)) == R.Sweep(s0, Sids(todo)[k..])
      {
        assert Sids(todo)[k..][1..] == Sids(todo)[k + 1..];
        if todo[k].sid in records {
          DropRecord(todo[k], Sids(todo)[k + 1..]);
          return;
        }
        k := k + 1;
      }
      reaper := R.Asleep;
    }

    method PassStarts(alive: bool) returns (todo: seq<SessionRecord>, k: nat)
      requires Valid() && reaper.Asleep?
      modifies this, issued
      ensures Valid() && issued == old(issued) && Sids(todo) == R.Snapshot(old(Abs())) && k <= |todo|
      ensures Abs() == R.PassStarts(old(Abs()), alive)
    {
      todo := Snapshot();
      if alive {
        k := Scan(clock, todo);
      } else {
        k := Sweep(todo);
      }
    }

    method ReaperLocks(rec: SessionRecord)
      requires Valid() && Mine(rec) && reaper.LockWait? && reaper.claim.sid == rec.sid
      requires IsWaiting(rec.lock, Reaper, Woken)
      modifies `reaper, `closed, rec`lock
      ensures Valid() && Abs() == R.ReaperLocks(old(Abs()))
    {
      SetLock(rec, Resume(rec.lock, Reaper));
      closed := closed + {rec.engineSession};
      reaper := R.Teardown(reaper.claim, reaper.passNow, reaper.rest);
    }

    method Bury(rec: SessionRecord)
      requires Valid() && Mine(rec) && reaper.Teardown? && reaper.claim.sid == rec.sid
      modifies this, rec`lock
      ensures Valid() && issued == old(issued) && Abs() == R.Bury(old(Abs()))
    {
      PopRecord(rec.sid);
      SetLock(rec, rec.lock.(holder := Retired));
      TombstoneAdd(rec.sid, rec.idleTimeout);
      reapedTotal := reapedTotal + 1;
      reapLog := reapLog + [reaper.claim];
      reaper := R.Asleep;
    }

    method ReapDone(rec: SessionRecord, passNow: real, rest: seq<SessionRecord>) returns (k: nat)
      requires Valid() && Mine(rec) && reaper.Teardown? && reaper.claim.sid == rec.sid
      requires reaper.passNow == passNow && reaper.rest == Sids(rest) && forall r :: r in rest ==> Mine(r)
      modifies this, issued
      ensures Valid() && issued == old(issued) && R.Within(Sids(rest), |issued|)
      ensures Abs() == R.ReapDone(old(Abs())) && k <= |rest|
    {
      Bury(rec);
      k := Scan(passNow, rest);
    }

    method SweepDone(rest: seq<SessionRecord>) returns (k: nat)
      requires Valid() && reaper == R.Sweeping(Sids(rest)) && forall r :: r in rest ==> Mine(r)
      modifies `reaper, `closed, `records, `ledger
      ensures Valid() && R.Within(Sids(rest), |issued|) && Abs() == R.SweepDone(old(Abs())) && k <= |rest|
    {
      k := Sweep(rest);
    }
  }

  ghost function Values(rs: seq<SessionRecord>): (r: seq<R.Rec>)
    reads rs
    ensures |r| == |rs| && forall i :: 0 <= i < |r| ==> r[i] == rs[i].Value()
  {
    seq(|rs|, i requires 0 <= i < |rs| reads rs => rs[i].Value())
  }

  ghost function Sids(rs: seq<SessionRecord>): (r: seq<nat>)
    ensures |r| == |rs| && forall i :: 0 <= i < |r| ==> r[i] == rs[i].sid
  {
    seq(|rs|, i requires 0 <= i < |rs| => rs[i].sid)
  }
}
