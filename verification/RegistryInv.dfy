/** What every atomic segment of the session registry keeps. */
module RegistryInv {
  import opened Common
  import opened AsyncLock
  import opened HttpErrors
  import opened Registry

  // ---- who claims, holds and awaits what --------------------------------------------

  /** Two kinds of task remove a record they have chosen: an eviction and the reaper. */
  predicate ClaimedBy(s: State, who: Who, sid: Sid) {
    match who
    case Request(t, timed) => timed && t < |s.tasks| &&
      ((s.tasks[t].EvictFirst? && s.tasks[t].victim == sid) || (s.tasks[t].EvictSecond? && s.tasks[t].victim == sid))
    case Reaper => (s.reaper.LockWait? || s.reaper.Teardown?) && s.reaper.claim.sid == sid
  }

  datatype Phase = Away | Queueing | Holds

  /** How a task stands to the lock of a session. */
  function PhaseOf(s: State, who: Who, sid: Sid): Phase {
    match who
    case Request(t, timed) =>
      if t >= |s.tasks| then Away
      else (match s.tasks[t]
            case Waiting(kind, x) => if x == sid && timed == (kind != Probe) then Queueing else Away
            case Holding(kind, x) => if x == sid && timed == (kind != Probe) then Holds else Away
            case Body(kind, x) => if x == sid && timed == (kind != Probe) then Holds else Away
            case _ => Away)
    case Reaper =>
      if s.reaper.LockWait? && s.reaper.claim.sid == sid then Queueing
      else if s.reaper.Teardown? && s.reaper.claim.sid == sid then Holds
      else Away
  }

  predicate Reaped(s: State, sid: Sid) {
    exists i :: 0 <= i < |s.reapLog| && s.reapLog[i].sid == sid
  }

  /** The engine session a pending create has been given and not yet registered. */
  predicate Carries(s: State, t: Task, eng: Eng) {
    && t < |s.tasks|
    && ((s.tasks[t].EvictSecond? && s.tasks[t].eng == eng) || (s.tasks[t].Rejecting? && s.tasks[t].eng == eng))
  }

  // ---- the invariant ----------------------------------------------------------------

  ghost predicate Claims(s: State)
    requires Shape(s)
  {
    && (forall who, sid: Sid :: ClaimedBy(s, who, sid) ==> sid < |s.recs| && s.recs[sid].closing)
    && (forall a, b, sid: Sid :: ClaimedBy(s, a, sid) && ClaimedBy(s, b, sid) ==> a == b)
    && (forall sid: Sid :: ClaimedBy(s, Reaper, sid) ==> !Reaped(s, sid))
    && (forall i :: 0 <= i < |s.reapLog| ==> s.recs[s.reapLog[i].sid].closing && s.reapLog[i].sid !in s.live)
    && (forall i, j :: 0 <= i < j < |s.reapLog| ==> s.reapLog[i].sid != s.reapLog[j].sid)
  }

  ghost predicate LockOk(s: State, sid: Sid)
    requires sid < |s.recs|
  {
    var l := s.recs[sid].lock;
    && Good(l)
    && (forall who :: who in Queue(l) <==> PhaseOf(s, who, sid) == Queueing)
    && (forall who :: l.holder == By(who) <==> PhaseOf(s, who, sid) == Holds)
    && (l.holder == Retired <==> Reaped(s, sid))
  }

  ghost predicate Locks(s: State) {
    forall sid :: 0 <= sid < |s.recs| ==> LockOk(s, sid)
  }

  /** Engine sessions are never shared between records and pending creates. */
  ghost predicate EnginesDistinct(s: State) {
    && (forall i, j :: 0 <= i < j < |s.recs| ==> s.recs[i].eng != s.recs[j].eng)
    && (forall t: Task, i, eng: Eng :: Carries(s, t, eng) && 0 <= i < |s.recs| ==> s.recs[i].eng != eng)
    && (forall t: Task, u: Task, eng: Eng :: Carries(s, t, eng) && Carries(s, u, eng) ==> t == u)
  }

  /** Whatever `get` hands out, or a create is about to register, has never been closed. */
  ghost predicate OpenIsOpen(s: State) {
    && (forall i :: 0 <= i < |s.recs| && i in s.live && !s.recs[i].closing ==> s.recs[i].eng !in s.closed)
    && (forall t :: 0 <= t < |s.tasks| && s.tasks[t].EvictSecond? ==> s.tasks[t].eng !in s.closed)
  }

  /** A pending create will register the engine session, or the registry holds it. */
  ghost predicate Tended(s: State, eng: Eng) {
    || (exists t: Task :: Carries(s, t, eng) && s.tasks[t].EvictSecond?)
    || (exists sid: Sid :: Registered(s, sid, eng))
  }

  predicate Registered(s: State, sid: Sid, eng: Eng) {
    sid in s.live && sid < |s.recs| && s.recs[sid].eng == eng
  }

  ghost predicate NoneLost(s: State) {
    forall eng: Eng :: eng < s.nextEng && eng !in s.closed ==> Tended(s, eng)
  }

  /** The record a task will pop when its `close` call returns. */
  function ClosedBy(pc: Pc): Option<Sid> {
    match pc
    case EvictFirst(v, _) => Some(v)
    case EvictSecond(v, _, _, _, _) => Some(v)
    case Body(kind, sid) => if kind == Delete then Some(sid) else None
    case Purging(sid, _) => Some(sid)
    case _ => None
  }

  /** A record is popped only by a task that has hidden it and called `close` on its engine session. */
  predicate IsClosing(s: State, sid: Sid) {
    sid < |s.recs| && s.recs[sid].closing && s.recs[sid].eng in s.closed
  }

  ghost predicate ClosedFirst(s: State)
    requires Shape(s)
  {
    && (forall t :: 0 <= t < |s.tasks| && ClosedBy(s.tasks[t]).Some? ==> IsClosing(s, ClosedBy(s.tasks[t]).value))
    && (s.reaper.Teardown? ==> s.recs[s.reaper.claim.sid].eng in s.closed)
  }

  ghost predicate Engines(s: State)
    requires Shape(s)
  {
    EnginesDistinct(s) && OpenIsOpen(s) && NoneLost(s) && ClosedFirst(s)
  }

  function Pairs(s: State, log: seq<Sighting>): seq<(Sid, int)>
    requires forall i :: 0 <= i < |log| ==> log[i].sid < |s.recs|
  {
    seq(|log|, i requires 0 <= i < |log| => (log[i].sid, s.recs[log[i].sid].idleTimeout))
  }

  ghost predicate Tombs(s: State)
    requires Shape(s)
  {
    s.tombstones == Suffix(Pairs(s, s.reapLog), s.cfg.tombstoneMax)
  }

  ghost predicate SightingOk(s: State, g: Sighting) {
    g.sid < |s.recs| && g.at <= s.now && g.at - g.lastUsed > s.recs[g.sid].idleTimeout as real
  }

  /** Nothing the pass has still to visit has left the registry without being hidden first. */
  predicate Visitable(s: State, todo: seq<Sid>) {
    forall i :: 0 <= i < |todo| ==> todo[i] < |s.recs| && (todo[i] in s.live || s.recs[todo[i]].closing)
  }

  ghost predicate Clocks(s: State) {
    && (forall i :: 0 <= i < |s.recs| ==> s.recs[i].lastUsed <= s.now)
    && (forall i :: 0 <= i < |s.reapLog| ==> SightingOk(s, s.reapLog[i]))
    && (s.reaper.LockWait? || s.reaper.Teardown? ==>
          s.reaper.passNow <= s.now && SightingOk(s, s.reaper.claim) && Visitable(s, s.reaper.rest))
  }

  ghost predicate Books(s: State) {
    && s.totals.created + s.ledger.noopPops
         == |s.live| + s.totals.reaped + s.totals.deleted + s.totals.evicted + s.ledger.dropped
    && s.totals.created == |s.recs|
    && s.totals.reaped == |s.reapLog|
    && |s.live| <= s.cfg.maxSessions + s.ledger.lateInserts
  }

  ghost predicate Inv(s: State) {
    Shape(s) && Claims(s) && Locks(s) && Engines(s) && Tombs(s) && Clocks(s) && Books(s)
  }

  lemma InitInv(cfg: Config, now: real)
    ensures Inv(Init(cfg, now))
  {
  }

  lemma {:induction false} ScanShape(s: State, passNow: real, todo: seq<Sid>)
    requires Within(todo, |s.recs|) && Shape(s.(reaper := Asleep))
    ensures Shape(Scan(s, passNow, todo))
    decreases |todo|
  {
    if |todo| > 0 && !Reapable(s, passNow, todo[0]) {
      ScanShape(s, passNow, todo[1..]);
    }
  }

  lemma {:induction false} SweepShape(s: State, todo: seq<Sid>)
    requires Within(todo, |s.recs|) && Shape(s.(reaper := Asleep))
    ensures Shape(Sweep(s, todo))
    decreases |todo|
  {
    if |todo| > 0 && todo[0] !in s.live {
      SweepShape(s, todo[1..]);
    }
  }

  /** Records and engine sessions are only ever added, so what old tasks name stays issued. */
  lemma ShapeGrows(s: State, s': State)
    requires Shape(s) && |s.recs| <= |s'.recs| && s.nextEng <= s'.nextEng
    requires forall x :: x in s'.live ==> x < |s'.recs|
    requires forall t :: 0 <= t < |s'.tasks| ==>
               (t < |s.tasks| && s'.tasks[t] == s.tasks[t]) || PcShape(s'.tasks[t], |s'.recs|, s'.nextEng)
    requires s'.reaper == s.reaper && s'.reapLog == s.reapLog
    requires forall i :: 0 <= i < |s'.recs| ==> s'.recs[i].eng < s'.nextEng
    requires forall e :: e in s'.closed ==> e < s'.nextEng
    ensures Shape(s')
  {
  }

  predicate IsReaper(e: Event) {
    e.EPassStarts? || e.EReaperLocks? || e.EReapDone? || e.ESweepDone?
  }

  lemma KeepsShapeCreateCall(s: State, requested: Option<int>)
    requires Shape(s)
    ensures Shape(CreateCall(s, requested))
  {
    ShapeGrows(s, CreateCall(s, requested));
  }

  lemma KeepsShapeLaunchDone(s: State, t: Task)
    requires Shape(s) && Enabled(s, ELaunchDone(t))
    ensures Shape(LaunchDone(s, t))
  {
    var s1 := s.(nextEng := s.nextEng + 1);
    ShapeGrows(s, s1);
    KeepsShapeSettle(s1, t, s.tasks[t].requested, s.tasks[t].evicted, s.nextEng, s.tasks[t].evictions);
  }

  lemma KeepsShapeSettle(s: State, t: Task, requested: Option<int>, evicted: Option<Sid>, eng: Eng, evictions: nat)
    requires Shape(s) && t < |s.tasks| && eng < s.nextEng
    ensures Shape(Settle(s, t, requested, evicted, eng, evictions))
  {
    if |s.live| < s.cfg.maxSessions {
      ShapeGrows(s, Admit(s, t, requested, eng, evicted, evictions));
    } else {
      KeepsShapeSecondPass(s, t, requested, evicted, eng, evictions);
    }
  }

  lemma KeepsShapeSecondPass(s: State, t: Task, requested: Option<int>, evicted: Option<Sid>, eng: Eng, evictions: nat)
    requires Shape(s) && t < |s.tasks| && eng < s.nextEng
    ensures Shape(SecondPass(s, t, requested, evicted, eng, evictions))
  {
  }

  lemma KeepsShapeCreate(s: State, e: Event)
    requires Shape(s) && Enabled(s, e)
    requires e.EEvictFirstDone? || e.ELaunchFailed? || e.ERejectDone? || e.EEvictSecondDone?
    ensures Shape(Apply(s, e))
  {
    ShapeGrows(s, Apply(s, e));
  }

  lemma KeepsShapeQueue(s: State, e: Event)
    requires Shape(s) && Enabled(s, e) && (e.EAcquireRuns? || e.EWaiterRuns? || e.ETimesOut? || e.EGivesUp?)
    ensures Shape(Apply(s, e))
  {
    ShapeGrows(s, Apply(s, e));
  }

  lemma KeepsShapeCall(s: State, kind: Kind, sid: Sid)
    requires Shape(s)
    ensures Shape(Call(s, kind, sid))
  {
  }

  lemma KeepsShapeBodyStarts(s: State, t: Task)
    requires Shape(s) && Enabled(s, EBodyStarts(t))
    ensures Shape(BodyStarts(s, t))
  {
  }

  lemma KeepsShapeLetGo(s: State, t: Task)
    requires Shape(s) && t < |s.tasks| && s.tasks[t].Body? && s.tasks[t].sid < |s.recs|
    ensures Shape(LetGo(s, t))
  {
    ShapeGrows(s, LetGo(s, t));
  }

  lemma KeepsShapeBodyEnds(s: State, t: Task, o: Outcome)
    requires Shape(s) && Enabled(s, EBodyEnds(t, o))
    ensures Shape(BodyEnds(s, t, o))
  {
    var sid := s.tasks[t].sid;
    match s.tasks[t].kind
    case Action =>
      ShapeGrows(s, AccountFor(s, sid, o));
      KeepsShapeLetGo(AccountFor(s, sid, o), t);
    case Delete =>
      ShapeGrows(s, BumpDeleted(Pop(s, sid)));
      KeepsShapeLetGo(BumpDeleted(Pop(s, sid)), t);
    case Probe => KeepsShapeLetGo(s, t);
  }

  lemma KeepsShapeReaper(s: State, e: Event)
    requires Shape(s) && Enabled(s, e) && IsReaper(e)
    ensures Shape(Apply(s, e))
  {
    match e
    case EPassStarts(alive) =>
      ScanShape(s, s.now, Snapshot(s));
      SweepShape(s, Snapshot(s));
    case EReapDone => ScanShape(Bury(s), s.reaper.passNow, s.reaper.rest);
    case ESweepDone => SweepShape(s, s.reaper.rest);
    case _ =>
  }

  lemma KeepsShape(s: State, e: Event)
    requires Shape(s) && Enabled(s, e)
    ensures Shape(Apply(s, e))
  {
    if e.EEvictFirstDone? || e.ELaunchFailed? || e.ERejectDone? || e.EEvictSecondDone? {
      KeepsShapeCreate(s, e);
    } else if e.EAcquireRuns? || e.EWaiterRuns? || e.ETimesOut? || e.EGivesUp? {
      KeepsShapeQueue(s, e);
    } else if IsReaper(e) {
      KeepsShapeReaper(s, e);
    } else if e.ECreateCall? {
      KeepsShapeCreateCall(s, e.requested);
    } else if e.ELaunchDone? {
      KeepsShapeLaunchDone(s, e.t);
    } else if e.ECall? {
      KeepsShapeCall(s, e.kind, e.sid);
    } else if e.EBodyStarts? {
      KeepsShapeBodyStarts(s, e.t);
    } else if e.EBodyEnds? {
      KeepsShapeBodyEnds(s, e.t, e.outcome);
    } else {
      ShapeGrows(s, Apply(s, e));
    }
  }

  // ---- the two loops of the reaper, as one step each ---------------------------------

  /** A scan either finds nothing or claims the first reapable record of what is left to visit. */
  lemma {:induction false} ScanCases(s: State, passNow: real, todo: seq<Sid>) returns (k: nat)
    requires Within(todo, |s.recs|)
    ensures k <= |todo| && forall i :: 0 <= i < k ==> !Reapable(s, passNow, todo[i])
    ensures k == |todo| ==> Scan(s, passNow, todo) == s.(reaper := Asleep)
    ensures k < |todo| ==> Reapable(s, passNow, todo[k])
    ensures k < |todo| ==> Scan(s, passNow, todo) == Claim(s, passNow, todo[k], todo[k + 1..])
    decreases |todo|
  {
    if |todo| == 0 || Reapable(s, passNow, todo[0]) {
      k := 0;
    } else {
      var j := ScanCases(s, passNow, todo[1..]);
      k := j + 1;
      assert j < |todo[1..]| ==> todo[1..][j + 1..] == todo[k + 1..];
    }
  }

  lemma {:induction false} SweepCases(s: State, todo: seq<Sid>) returns (k: nat)
    requires Within(todo, |s.recs|)
    ensures k <= |todo| && forall i :: 0 <= i < k ==> todo[i] !in s.live
    ensures k == |todo| ==> Sweep(s, todo) == s.(reaper := Asleep)
    ensures k < |todo| ==> todo[k] in s.live && Sweep(s, todo) == Drop(s, todo[k], todo[k + 1..])
    decreases |todo|
  {
    if |todo| == 0 || todo[0] in s.live {
      k := 0;
    } else {
      var j := SweepCases(s, todo[1..]);
      k := j + 1;
      assert j < |todo[1..]| ==> todo[1..][j + 1..] == todo[k + 1..];
    }
  }

  // ---- locks -------------------------------------------------------------------------

  lemma NobodyThere(s: State, x: nat)
    requires Shape(s) && x >= |s.recs|
    ensures forall who :: PhaseOf(s, who, x) == Away
    ensures !Reaped(s, x)
  {
  }

  /** Only task t is somewhere else, or new. */
  predicate OthersStay(s: State, s': State, t: Task) {
    forall u: Task :: u < |s'.tasks| && u != t ==> u < |s.tasks| && s'.tasks[u] == s.tasks[u]
  }

  /** One request task moves, on one session at most; every other lock keeps its invariant. */
  lemma LocksByTask(s: State, s': State, t: Task, sid0: nat)
    requires Shape(s) && Locks(s) && t < |s'.tasks|
    requires |s.tasks| <= |s'.tasks| <= |s.tasks| + 1
    requires OthersStay(s, s', t)
    requires s'.reaper == s.reaper && s'.reapLog == s.reapLog
    requires forall x: Sid, b :: x != sid0 ==>
               PhaseOf(s, Request(t, b), x) == Away && PhaseOf(s', Request(t, b), x) == Away
    requires |s.recs| <= |s'.recs|
    requires forall x :: 0 <= x < |s.recs| && x != sid0 ==> s'.recs[x].lock == s.recs[x].lock
    requires forall x :: |s.recs| <= x < |s'.recs| ==> x != sid0 && s'.recs[x].lock == UNLOCKED
    requires sid0 < |s'.recs| ==> LockOk(s', sid0)
    ensures Locks(s')
  {
    forall x | 0 <= x < |s'.recs| && x != sid0 ensures LockOk(s', x) {
      assert forall who: Who :: !(who.Request? && who.task == t) ==> PhaseOf(s', who, x) == PhaseOf(s, who, x);
      assert Reaped(s', x) == Reaped(s, x);
      if x >= |s.recs| {
        NobodyThere(s, x);
        assert Queue(UNLOCKED) == {};
      } else {
        assert LockOk(s, x);
      }
    }
  }

  /** What is left to show about the one lock a step touches. */
  lemma LockOkAfter(s: State, s': State, who: Who, sid: Sid)
    requires sid < |s.recs| && sid < |s'.recs| && LockOk(s, sid)
    requires Good(s'.recs[sid].lock)
    requires forall w :: w != who ==> PhaseOf(s', w, sid) == PhaseOf(s, w, sid)
    requires Queue(s'.recs[sid].lock) - {who} == Queue(s.recs[sid].lock) - {who}
    requires who in Queue(s'.recs[sid].lock) <==> PhaseOf(s', who, sid) == Queueing
    requires forall w :: w != who ==> (s'.recs[sid].lock.holder == By(w) <==> s.recs[sid].lock.holder == By(w))
    requires s'.recs[sid].lock.holder == By(who) <==> PhaseOf(s', who, sid) == Holds
    requires s'.recs[sid].lock.holder == Retired <==> Reaped(s', sid)
    ensures LockOk(s', sid)
  {
    var l, l' := s.recs[sid].lock, s'.recs[sid].lock;
    forall w ensures w in Queue(l') <==> PhaseOf(s', w, sid) == Queueing {
      if w != who {
        assert w in Queue(l') <==> w in Queue(l') - {who};
        assert w in Queue(l) <==> w in Queue(l) - {who};
      }
    }
  }

  /** The reaper neither awaits nor holds the lock of a record that is not closing. */
  lemma OpenIsNotReaped(s: State, sid: Sid)
    requires Shape(s) && Locks(s) && Claims(s) && sid < |s.recs| && !s.recs[sid].closing
    ensures ReaperAway(s.recs[sid].lock)
  {
    assert LockOk(s, sid);
    assert !ClaimedBy(s, Reaper, sid);
    assert PhaseOf(s, Reaper, sid) == Away;
    assert !Reaped(s, sid);
  }

  ghost predicate ReaperAway(l: Lock) {
    Reaper !in Queue(l) && l.holder != By(Reaper) && l.holder != Retired
  }

  /** Entering takes the lock or queues for it, and moves nobody else. */
  lemma EnteredPhases(s: State, t: Task, kind: Kind, sid: Sid)
    requires Shape(s) && t < |s.tasks| && sid < |s.recs|
    requires forall b :: PhaseOf(s, Request(t, b), sid) == Away
    ensures var s', who := Enter(s, t, kind, sid), Asker(t, kind);
      && PhaseOf(s', who, sid) == (if CanTake(s.recs[sid].lock) then Holds else Queueing)
      && forall w: Who :: w != who ==> PhaseOf(s', w, sid) == PhaseOf(s, w, sid)
  {
    var s', who := Enter(s, t, kind, sid), Asker(t, kind);
    assert PhaseOf(s', Request(t, !who.timed), sid) == Away;
    forall w: Who | w != who ensures PhaseOf(s', w, sid) == PhaseOf(s, w, sid) {
      if w.Request? && w.task == t {
        assert w == Request(t, !who.timed);
      }
    }
  }

  lemma EnteredOk(s: State, t: Task, kind: Kind, sid: Sid)
    requires Shape(s) && t < |s.tasks| && sid < |s.recs| && LockOk(s, sid)
    requires forall b :: PhaseOf(s, Request(t, b), sid) == Away
    requires kind == Probe ==> ReaperAway(s.recs[sid].lock)
    ensures LockOk(Enter(s, t, kind, sid), sid)
  {
    var s', who, l := Enter(s, t, kind, sid), Asker(t, kind), s.recs[sid].lock;
    assert PhaseOf(s, who, sid) == Away;
    AcquireKeeps(l, who);
    assert s'.recs[sid].lock == Acquire(l, who);
    EnteredPhases(s, t, kind, sid);
    LockOkAfter(s, s', who, sid);
  }

  lemma LocksEnter(s: State, t: Task, kind: Kind, sid: Sid)
    requires Shape(s) && Locks(s) && t < |s.tasks| && sid < |s.recs|
    requires forall x: Sid, b :: PhaseOf(s, Request(t, b), x) == Away
    requires kind == Probe ==> ReaperAway(s.recs[sid].lock)
    ensures Locks(Enter(s, t, kind, sid))
  {
    EnteredOk(s, t, kind, sid);
    LocksByTask(s, Enter(s, t, kind, sid), t, sid);
  }

  lemma LocksWaiterRuns(s: State, t: Task)
    requires Shape(s) && Locks(s) && Enabled(s, EWaiterRuns(t))
    ensures Locks(WaiterRuns(s, t))
  {
    var sid, who := s.tasks[t].sid, Asker(t, s.tasks[t].kind);
    assert LockOk(s, sid);
    ResumeKeeps(s.recs[sid].lock, who);
    LockOkAfter(s, WaiterRuns(s, t), who, sid);
    LocksByTask(s, WaiterRuns(s, t), t, sid);
  }

  lemma LocksTimesOut(s: State, t: Task)
    requires Shape(s) && Locks(s) && Enabled(s, ETimesOut(t))
    ensures Locks(TimesOut(s, t))
  {
    var sid, who := s.tasks[t].sid, Asker(t, s.tasks[t].kind);
    assert LockOk(s, sid);
    if s.tasks[t].Got? {
      LocksByTask(s, TimesOut(s, t), t, |s.recs|);
    } else {
      CancelKeeps(s.recs[sid].lock, who);
      LockOkAfter(s, TimesOut(s, t), who, sid);
      LocksByTask(s, TimesOut(s, t), t, sid);
    }
  }

  lemma LocksGivesUp(s: State, t: Task)
    requires Shape(s) && Locks(s) && Enabled(s, EGivesUp(t))
    ensures Locks(GivesUp(s, t))
  {
    assert LockOk(s, s.tasks[t].sid);
    GaveUpOk(s, t);
    LocksByTask(s, GivesUp(s, t), t, s.tasks[t].sid);
  }

  lemma GaveUpOk(s: State, t: Task)
    requires Shape(s) && Enabled(s, EGivesUp(t)) && LockOk(s, s.tasks[t].sid)
    ensures LockOk(GivesUp(s, t), s.tasks[t].sid)
  {
    var sid, who := s.tasks[t].sid, Asker(t, s.tasks[t].kind);
    AbandonKeeps(s.recs[sid].lock, who);
    LockOkAfter(s, GivesUp(s, t), who, sid);
  }

  lemma LocksBodyStarts(s: State, t: Task)
    requires Shape(s) && Locks(s) && Enabled(s, EBodyStarts(t))
    ensures Locks(BodyStarts(s, t))
  {
    var sid, who := s.tasks[t].sid, Asker(t, s.tasks[t].kind);
    assert LockOk(s, sid);
    LockOkAfter(s, BodyStarts(s, t), who, sid);
    LocksByTask(s, BodyStarts(s, t), t, sid);
  }

  lemma LocksLetGo(s: State, t: Task)
    requires Shape(s) && Locks(s) && t < |s.tasks| && s.tasks[t].Body?
    ensures Locks(LetGo(s, t))
  {
    var s', sid, who := LetGo(s, t), s.tasks[t].sid, Asker(t, s.tasks[t].kind);
    assert LockOk(s, sid);
    assert PhaseOf(s, who, sid) == Holds;
    ReleaseKeeps(s.recs[sid].lock);
    LockOkAfter(s, s', who, sid);
    LocksByTask(s, s', t, sid);
  }

  lemma LocksSame(s: State, s': State)
    requires Shape(s) && Locks(s) && s'.tasks == s.tasks && s'.reaper == s.reaper && s'.reapLog == s.reapLog
    requires |s'.recs| == |s.recs| && forall x :: 0 <= x < |s.recs| ==> s'.recs[x].lock == s.recs[x].lock
    ensures Locks(s')
  {
    forall x | 0 <= x < |s'.recs| ensures LockOk(s', x) {
      assert LockOk(s, x);
      assert forall who: Who :: PhaseOf(s', who, x) == PhaseOf(s, who, x);
      assert Reaped(s', x) == Reaped(s, x);
    }
  }

  /** Segments of `create` and of the reset never touch a lock. */
  lemma LocksBystander(s: State, s': State, t: Task)
    requires Shape(s) && Locks(s) && t < |s'.tasks|
    requires |s.tasks| <= |s'.tasks| <= |s.tasks| + 1
    requires OthersStay(s, s', t)
    requires s'.reaper == s.reaper && s'.reapLog == s.reapLog
    requires forall x: Sid, b :: PhaseOf(s, Request(t, b), x) == Away && PhaseOf(s', Request(t, b), x) == Away
    requires |s.recs| <= |s'.recs|
    requires forall x :: 0 <= x < |s.recs| ==> s'.recs[x].lock == s.recs[x].lock
    requires forall x :: |s.recs| <= x < |s'.recs| ==> s'.recs[x].lock == UNLOCKED
    ensures Locks(s')
  {
    LocksByTask(s, s', t, |s'.recs|);
  }

  /** The reaper moves, on one session at most. */
  lemma LocksByReaper(s: State, s': State, sid0: nat)
    requires Shape(s) && Locks(s)
    requires s'.tasks == s.tasks && |s'.recs| == |s.recs|
    requires forall x: Sid :: x != sid0 ==> PhaseOf(s, Reaper, x) == Away && PhaseOf(s', Reaper, x) == Away
    requires forall x: Sid :: x != sid0 ==> Reaped(s', x) == Reaped(s, x)
    requires forall x :: 0 <= x < |s.recs| && x != sid0 ==> s'.recs[x].lock == s.recs[x].lock
    requires sid0 < |s'.recs| ==> LockOk(s', sid0)
    ensures Locks(s')
  {
    forall x | 0 <= x < |s'.recs| && x != sid0 ensures LockOk(s', x) {
      assert LockOk(s, x);
      assert forall who: Who :: PhaseOf(s', who, x) == PhaseOf(s, who, x);
    }
  }

  lemma LocksClaim(s: State, passNow: real, sid: Sid, rest: seq<Sid>)
    requires Shape(s) && Locks(s) && s.reaper.Asleep? && sid < |s.recs|
    requires ReaperAway(s.recs[sid].lock)
    ensures Locks(Claim(s, passNow, sid, rest))
  {
    var s', l := Claim(s, passNow, sid, rest), s.recs[sid].lock;
    assert LockOk(s, sid);
    AcquireKeeps(l, Reaper);
    assert s'.recs[sid].lock == Acquire(l, Reaper);
    LockOkAfter(s, s', Reaper, sid);
    LocksByReaper(s, s', sid);
  }

  lemma LocksReaperLocks(s: State)
    requires Shape(s) && Locks(s) && Enabled(s, EReaperLocks)
    ensures Locks(ReaperLocks(s))
  {
    var sid := s.reaper.claim.sid;
    assert LockOk(s, sid);
    ResumeKeeps(s.recs[sid].lock, Reaper);
    LockOkAfter(s, ReaperLocks(s), Reaper, sid);
    LocksByReaper(s, ReaperLocks(s), sid);
  }

  lemma LocksBury(s: State)
    requires Shape(s) && Locks(s) && s.reaper.Teardown?
    ensures Locks(Bury(s))
  {
    var s', sid := Bury(s), s.reaper.claim.sid;
    assert LockOk(s, sid);
    assert PhaseOf(s, Reaper, sid) == Holds;
    assert s'.reapLog[|s.reapLog|].sid == sid;
    forall x: Sid | x != sid ensures Reaped(s', x) == Reaped(s, x) {
      if Reaped(s, x) {
        var i :| 0 <= i < |s.reapLog| && s.reapLog[i].sid == x;
        assert s'.reapLog[i].sid == x;
      }
    }
    LockOkAfter(s, s', Reaper, sid);
    LocksByReaper(s, s', sid);
  }

  // ---- claims ------------------------------------------------------------------------

  /** Records only ever get more closing, and only new ones enter the registry. */
  predicate Advances(s: State, s': State) {
    && |s.recs| <= |s'.recs|
    && (forall i :: 0 <= i < |s.recs| && s.recs[i].closing ==> s'.recs[i].closing)
    && (forall x :: x in s'.live ==> x in s.live || x >= |s.recs|)
  }

  /** A step that makes at most one new claim, on a record that was not closing. */
  lemma ClaimsStep(s: State, s': State, who0: Who, v: Sid)
    requires Shape(s) && Shape(s') && Claims(s) && Advances(s, s') && s'.reapLog == s.reapLog
    requires forall who, sid: Sid :: ClaimedBy(s', who, sid) ==> ClaimedBy(s, who, sid) || (who == who0 && sid == v)
    requires v < |s.recs| ==> !s.recs[v].closing && s'.recs[v].closing
    requires v >= |s.recs| ==> !ClaimedBy(s', who0, v)
    ensures Claims(s')
  {
  }

  lemma ClaimsBury(s: State)
    requires Shape(s) && s.reaper.Teardown? && Shape(Bury(s)) && Claims(s)
    ensures Claims(Bury(s))
  {
    var s', sid := Bury(s), s.reaper.claim.sid;
    assert ClaimedBy(s, Reaper, sid);
    ClaimIsNew(s);
    forall who, x: Sid | ClaimedBy(s', who, x) ensures ClaimedBy(s, who, x) && !who.Reaper? {
    }
  }

  // ---- engine sessions ---------------------------------------------------------------

  ghost predicate SameEngines(s: State, s': State) {
    && |s'.recs| == |s.recs| && s'.nextEng == s.nextEng
    && forall i :: 0 <= i < |s.recs| ==> s'.recs[i].eng == s.recs[i].eng
  }

  lemma EnginesDistinctFrame(s: State, s': State)
    requires EnginesDistinct(s) && SameEngines(s, s')
    requires forall t: Task, eng: Eng :: Carries(s', t, eng) ==> Carries(s, t, eng)
    ensures EnginesDistinct(s')
  {
  }

  /** Nothing is lost if whatever leaves the registry or a create's hands has been closed. */
  lemma NoneLostFrame(s: State, s': State)
    requires NoneLost(s) && SameEngines(s, s') && s.closed <= s'.closed
    requires forall x: Sid :: x in s.live && x < |s.recs| ==> x in s'.live || s.recs[x].eng in s'.closed
    requires forall t: Task :: t < |s.tasks| && s.tasks[t].EvictSecond? ==> t < |s'.tasks| && s'.tasks[t] == s.tasks[t]
    ensures NoneLost(s')
  {
    forall eng: Eng | eng < s'.nextEng && eng !in s'.closed ensures Tended(s', eng) {
      if t: Task :| Carries(s, t, eng) && s.tasks[t].EvictSecond? {
        assert Carries(s', t, eng);
      } else {
        assert Tended(s, eng);
        var sid: Sid :| Registered(s, sid, eng);
        assert Registered(s', sid, eng);
      }
    }
  }

  /** Steps that neither start nor register an engine session. */
  lemma EnginesStep(s: State, s': State)
    requires Shape(s) && Shape(s') && Engines(s) && SameEngines(s, s')
    requires Advances(s, s') && s.closed <= s'.closed
    requires forall i :: 0 <= i < |s.recs| && s.recs[i].eng in s'.closed ==>
               s.recs[i].eng in s.closed || s'.recs[i].closing || i !in s'.live
    requires forall x: Sid :: x in s.live && x < |s.recs| ==> x in s'.live || s.recs[x].eng in s'.closed
    requires forall t: Task :: t < |s.tasks| && s.tasks[t].EvictSecond? ==>
               t < |s'.tasks| && s'.tasks[t] == s.tasks[t] && s.tasks[t].eng !in s'.closed
    requires forall t: Task :: t < |s'.tasks| && (s'.tasks[t].EvictSecond? || s'.tasks[t].Rejecting?) ==>
               t < |s.tasks| && s'.tasks[t] == s.tasks[t]
    requires forall t: Task :: t < |s'.tasks| && ClosedBy(s'.tasks[t]).Some? ==>
               (t < |s.tasks| && s'.tasks[t] == s.tasks[t]) || IsClosing(s', ClosedBy(s'.tasks[t]).value)
    requires s'.reaper.Teardown? ==> s'.reaper == s.reaper || s'.recs[s'.reaper.claim.sid].eng in s'.closed
    ensures Engines(s')
  {
    EnginesDistinctFrame(s, s');
    NoneLostFrame(s, s');
  }

  lemma EnginesInsert(s: State, s': State, requested: Option<int>, eng: Eng, t: Task, done: Pc)
    requires Shape(s) && Shape(s') && Engines(s) && t < |s.tasks|
    requires s'.recs == s.recs + [Rec(eng, EffectiveTimeout(s.cfg, requested), s.now, false, UNLOCKED)]
    requires s'.closed == s.closed && s'.reaper == s.reaper && eng !in s.closed
    requires (s'.nextEng == s.nextEng && Carries(s, t, eng)) || (s'.nextEng == s.nextEng + 1 && eng == s.nextEng)
    requires s'.tasks == s.tasks[t := done] && done.Created?
    requires s.tasks[t].EvictSecond? ==> s.tasks[t].eng == eng
    requires |s.recs| in s'.live
    requires forall x: Sid :: x in s'.live ==> x in s.live || x == |s.recs|
    requires forall x: Sid :: x in s.live && x < |s.recs| ==> x in s'.live || s.recs[x].eng in s.closed
    ensures Engines(s')
  {
    forall u: Task, e: Eng | Carries(s', u, e) ensures Carries(s, u, e) && u != t && e != eng {
      assert u != t && s'.tasks[u] == s.tasks[u];
      assert PcShape(s.tasks[u], |s.recs|, s.nextEng) && e < s.nextEng;
      if s'.nextEng == s.nextEng {
        CarriersDiffer(s, t, eng, u, e);
      }
    }
    InsertNoneLost(s, s', eng, t);
  }

  lemma CarriersDiffer(s: State, t: Task, eng: Eng, u: Task, e: Eng)
    requires EnginesDistinct(s) && Carries(s, t, eng) && Carries(s, u, e) && u != t
    ensures e != eng
  {
  }

  lemma InsertNoneLost(s: State, s': State, eng: Eng, t: Task)
    requires NoneLost(s) && t < |s.tasks|
    requires |s'.recs| == |s.recs| + 1 && s'.recs[..|s.recs|] == s.recs && s'.recs[|s.recs|].eng == eng
    requires s'.closed == s.closed && (s'.nextEng == s.nextEng || (s'.nextEng == s.nextEng + 1 && eng == s.nextEng))
    requires |s'.tasks| == |s.tasks| && OthersStay(s, s', t)
    requires s.tasks[t].EvictSecond? ==> s.tasks[t].eng == eng
    requires |s.recs| in s'.live
    requires forall x: Sid :: x in s.live && x < |s.recs| ==> x in s'.live || s.recs[x].eng in s.closed
    ensures NoneLost(s')
  {
    forall e: Eng | e < s'.nextEng && e !in s'.closed ensures Tended(s', e) {
      if e == eng {
        assert Registered(s', |s.recs|, e);
      } else if u: Task :| Carries(s, u, e) && s.tasks[u].EvictSecond? {
        assert u != t && s'.tasks[u] == s.tasks[u];
        assert Carries(s', u, e);
      } else {
        assert Tended(s, e);
        var sid: Sid :| Registered(s, sid, e);
        assert s'.recs[sid] == s.recs[sid];
        assert Registered(s', sid, e);
      }
    }
  }

  // ---- tombstones --------------------------------------------------------------------

  ghost predicate SameTimeouts(s: State, s': State) {
    |s.recs| <= |s'.recs| && forall i :: 0 <= i < |s.recs| ==> s'.recs[i].idleTimeout == s.recs[i].idleTimeout
  }

  lemma TombsFrame(s: State, s': State)
    requires Shape(s) && Shape(s') && Tombs(s) && SameTimeouts(s, s')
    requires s'.tombstones == s.tombstones && s'.reapLog == s.reapLog && s'.cfg == s.cfg
    ensures Tombs(s')
  {
  }

  lemma {:induction false} WithoutAbsent(ts: seq<(Sid, int)>, sid: Sid)
    requires forall i :: 0 <= i < |ts| ==> ts[i].0 != sid
    ensures Without(ts, sid) == ts
  {
    if |ts| > 0 {
      WithoutAbsent(ts[1..], sid);
    }
  }

  lemma SuffixOfSuffix<T>(xs: seq<T>, x: T, n: nat)
    ensures Suffix(Suffix(xs, n) + [x], n) == Suffix(xs + [x], n)
  {
  }

  /** The session being reaped has not been reaped before. */
  lemma ClaimIsNew(s: State)
    requires Shape(s) && s.reaper.Teardown? && Claims(s)
    ensures forall i :: 0 <= i < |s.reapLog| ==> s.reapLog[i].sid != s.reaper.claim.sid
  {
    assert ClaimedBy(s, Reaper, s.reaper.claim.sid);
    forall i | 0 <= i < |s.reapLog| ensures s.reapLog[i].sid != s.reaper.claim.sid {
      if s.reapLog[i].sid == s.reaper.claim.sid {
        assert Reaped(s, s.reaper.claim.sid);
      }
    }
  }

  lemma TombstoneAddIsSuffix(all: seq<(Sid, int)>, sid: Sid, timeout: int, n: nat)
    requires forall i :: 0 <= i < |all| ==> all[i].0 != sid
    ensures TombstoneAdd(Suffix(all, n), sid, timeout, n) == Suffix(all + [(sid, timeout)], n)
  {
    WithoutAbsent(Suffix(all, n), sid);
    SuffixOfSuffix(all, (sid, timeout), n);
  }

  lemma TombsBury(s: State)
    requires Shape(s) && s.reaper.Teardown? && Shape(Bury(s)) && Claims(s) && Tombs(s)
    ensures Tombs(Bury(s))
  {
    var s', g := Bury(s), s.reaper.claim;
    var timeout := s.recs[g.sid].idleTimeout;
    ClaimIsNew(s);
    TombstoneAddIsSuffix(Pairs(s, s.reapLog), g.sid, timeout, s.cfg.tombstoneMax);
    assert Pairs(s', s'.reapLog) == Pairs(s, s.reapLog) + [(g.sid, timeout)];
  }

  // ---- clocks ------------------------------------------------------------------------

  lemma ClocksStep(s: State, s': State)
    requires Shape(s) && Clocks(s) && Advances(s, s') && SameTimeouts(s, s') && s.now <= s'.now
    requires forall i :: 0 <= i < |s'.recs| ==> s'.recs[i].lastUsed <= s'.now
    requires forall x: Sid :: x in s.live && x < |s.recs| && x !in s'.live ==> s'.recs[x].closing
    requires s'.reaper == s.reaper && s'.reapLog == s.reapLog
    ensures Clocks(s')
  {
  }

  lemma ClocksClaim(s: State, passNow: real, sid: Sid, rest: seq<Sid>)
    requires Shape(s) && Clocks(s) && sid < |s.recs| && Reapable(s, passNow, sid)
    requires passNow <= s.now && Visitable(s, rest)
    ensures Clocks(Claim(s, passNow, sid, rest))
  {
  }

  lemma ClocksBury(s: State)
    requires Shape(s) && Clocks(s) && s.reaper.Teardown?
    ensures Clocks(Bury(s))
  {
  }

  lemma ClocksReaperLocks(s: State)
    requires Shape(s) && Clocks(s) && Enabled(s, EReaperLocks)
    ensures Clocks(ReaperLocks(s))
  {
  }

  lemma ClocksDrop(s: State, sid: Sid, rest: seq<Sid>)
    requires Shape(s) && Clocks(s) && sid < |s.recs|
    ensures Clocks(Drop(s, sid, rest))
  {
  }
}
