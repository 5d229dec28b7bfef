/**
  The session registry as a transition system.

  The service runs on one event loop, so everything a task does between two suspension
  points is one atomic step.  A `State` is what is shared or pending at such a point: the
  registry with its tombstones and counters, every record ever issued (tasks keep
  references to records the registry has dropped), the lock of each record, and where
  every request task and the reaper are suspended.  `Apply` is the effect of one atomic
  segment and `Enabled` says which segments can run next.

  Session ids are issue numbers, so the insertion order of the Python dict is numeric
  order; task ids are start numbers.
*/
module Registry {
  import opened Common
  import opened AsyncLock
  import opened HttpErrors

  type Sid = nat
  type Eng = nat
  type Task = nat

  /** Seconds without activity before a session may be evicted. */
  const EVICT_WINDOW: real := 5.0

  datatype Config = Config(maxSessions: nat, tombstoneMax: nat, idleDefault: int, idleMin: int, idleMax: int)

  datatype Rec = Rec(eng: Eng, idleTimeout: int, lastUsed: real, closing: bool, lock: Lock)

  datatype Totals = Totals(created: nat, reaped: nat, deleted: nat, rejected: nat, evicted: nat,
                           actions: nat, actionErrors: nat)

  /** Bookkeeping that the service does not do: what the counters cannot tell. */
  datatype Ledger = Ledger(noopPops: nat, dropped: nat, lateInserts: nat)

  datatype Kind = Action | Delete | Probe

  /** Where a request task is suspended, or how it ended.  A create counts the evictions it has finished. */
  datatype Pc =
    | EvictFirst(victim: Sid, requested: Option<int>)
    | Launching(requested: Option<int>, evicted: Option<Sid>, evictions: nat)
    | EvictSecond(victim: Sid, requested: Option<int>, earlier: Option<Sid>, eng: Eng, evictions: nat)
    | Rejecting(eng: Eng, evictions: nat)
    | Created(sid: Sid, reported: Option<Sid>, evictions: nat)
    | Failed(evictions: nat)
    | Got(kind: Kind, sid: Sid)
    | Waiting(kind: Kind, sid: Sid)
    | Holding(kind: Kind, sid: Sid)
    | Body(kind: Kind, sid: Sid)
    | Purging(sid: Sid, rest: seq<Sid>)
    | Ended

  /** What the reaper saw when it decided to reap: the loop's clock and the record's idle clock. */
  datatype Sighting = Sighting(sid: Sid, at: real, lastUsed: real)

  datatype ReaperPc =
    | Asleep
    | LockWait(claim: Sighting, passNow: real, rest: seq<Sid>)
    | Teardown(claim: Sighting, passNow: real, rest: seq<Sid>)
    | Sweeping(rest: seq<Sid>)

  datatype State = State(
    cfg: Config,
    now: real,
    recs: seq<Rec>,
    live: set<Sid>,
    tombstones: seq<(Sid, int)>,
    totals: Totals,
    tasks: seq<Pc>,
    reaper: ReaperPc,
    nextEng: Eng,
    closed: set<Eng>,
    reapLog: seq<Sighting>,
    ledger: Ledger)

  function Init(cfg: Config, now: real): State {
    State(cfg, now, [], {}, [], Totals(0, 0, 0, 0, 0, 0, 0), [], Asleep, 0, {}, [], Ledger(0, 0, 0))
  }

  // ---- reading the registry ------------------------------------------------------

  /** What `get` answers. */
  datatype Answer = Found | Expired(idleTimeout: int) | Unknown

  function TombstoneOf(ts: seq<(Sid, int)>, sid: Sid): Option<int> {
    if |ts| == 0 then None
    else if ts[0].0 == sid then Some(ts[0].1)
    else TombstoneOf(ts[1..], sid)
  }

  function Get(s: State, sid: Sid): Answer {
    if sid in s.live && sid < |s.recs| && !s.recs[sid].closing then Found
    else match TombstoneOf(s.tombstones, sid)
         case Some(t) => Expired(t)
         case None => Unknown
  }

  function EffectiveTimeout(cfg: Config, requested: Option<int>): int {
    match requested
    case None => cfg.idleDefault
    case Some(r) =>
      var capped := if r < cfg.idleMax then r else cfg.idleMax;
      if capped < cfg.idleMin then cfg.idleMin else capped
  }

  predicate Evictable(s: State, sid: Sid) {
    && sid in s.live && sid < |s.recs|
    && !s.recs[sid].closing
    && !Locked(s.recs[sid].lock)
    && s.now - s.recs[sid].lastUsed >= EVICT_WINDOW
  }

  /** The first record, in registry order, among the evictable ones unused for longest. */
  predicate IsOldest(s: State, v: Sid, n: nat)
    requires n <= |s.recs|
  {
    && v < n && Evictable(s, v)
    && forall c: Sid :: c < n && Evictable(s, c) ==>
         s.recs[v].lastUsed < s.recs[c].lastUsed || (s.recs[v].lastUsed == s.recs[c].lastUsed && v <= c)
  }

  /** `_oldest_evictable_idle` over the first n issued records. */
  function OldestAmong(s: State, n: nat): (r: Option<Sid>)
    requires n <= |s.recs|
    ensures r.None? ==> forall c: Sid :: c < n ==> !Evictable(s, c)
    ensures r.Some? ==> IsOldest(s, r.value, n)
  {
    if n == 0 then None
    else
      var best := OldestAmong(s, n - 1);
      if !Evictable(s, n - 1) then best
      else if best.Some? && s.recs[best.value].lastUsed <= s.recs[n - 1].lastUsed then best
      else Some(n - 1)
  }

  function Oldest(s: State): (r: Option<Sid>)
    ensures r.None? ==> forall c: Sid :: c < |s.recs| ==> !Evictable(s, c)
    ensures r.Some? ==> IsOldest(s, r.value, |s.recs|)
  {
    OldestAmong(s, |s.recs|)
  }

  predicate Within(xs: seq<Sid>, n: nat) {
    forall i :: 0 <= i < |xs| ==> xs[i] < n
  }

  /** The registry's keys in insertion order: the snapshot `list(self._records)` takes. */
  function OrderedUpTo(live: set<Sid>, n: nat): (r: seq<Sid>)
    ensures Within(r, n)
    ensures forall x :: x in r <==> x in live && x < n
    ensures forall i, j :: 0 <= i < j < |r| ==> r[i] < r[j]
  {
    if n == 0 then [] else
      var init := OrderedUpTo(live, n - 1);
      if n - 1 in live then init + [n - 1] else init
  }

  function Snapshot(s: State): seq<Sid> {
    OrderedUpTo(s.live, |s.recs|)
  }

  predicate Reapable(s: State, passNow: real, sid: Sid)
    requires sid < |s.recs|
  {
    var r := s.recs[sid];
    !r.closing && !Locked(r.lock) && passNow - r.lastUsed > r.idleTimeout as real
  }

  // ---- building blocks -----------------------------------------------------------

  function WithLock(s: State, sid: Sid, l: Lock): State
    requires sid < |s.recs|
  {
    s.(recs := s.recs[sid := s.recs[sid].(lock := l)])
  }

  function WithTask(s: State, t: Task, pc: Pc): State
    requires t < |s.tasks|
  {
    s.(tasks := s.tasks[t := pc])
  }

  function Spawn(s: State, pc: Pc): State {
    s.(tasks := s.tasks + [pc])
  }

  /** Raises the flag that hides the record from `get`. */
  function MarkClosing(s: State, sid: Sid): State
    requires sid < |s.recs|
  {
    s.(recs := s.recs[sid := s.recs[sid].(closing := true)])
  }

  /** `close` of the engine session is called; the caller is suspended until it returns. */
  function CallClose(s: State, eng: Eng): State {
    s.(closed := s.closed + {eng})
  }

  function BeginClose(s: State, sid: Sid): State
    requires sid < |s.recs|
  {
    CallClose(MarkClosing(s, sid), s.recs[sid].eng)
  }

  /** `pop(sid, None)`. */
  function Pop(s: State, sid: Sid): State {
    if sid in s.live then s.(live := s.live - {sid})
    else s.(ledger := s.ledger.(noopPops := s.ledger.noopPops + 1))
  }

  function Insert(s: State, requested: Option<int>, eng: Eng): State {
    s.(recs := s.recs + [Rec(eng, EffectiveTimeout(s.cfg, requested), s.now, false, UNLOCKED)],
       live := s.live + {|s.recs|},
       totals := s.totals.(created := s.totals.created + 1))
  }

  function Without(ts: seq<(Sid, int)>, sid: Sid): seq<(Sid, int)> {
    if |ts| == 0 then []
    else if ts[0].0 == sid then Without(ts[1..], sid)
    else [ts[0]] + Without(ts[1..], sid)
  }

  /** `_tombstone_add` on the ordered dict of (id, timeout) pairs. */
  function TombstoneAdd(ts: seq<(Sid, int)>, sid: Sid, timeout: int, max: nat): seq<(Sid, int)> {
    Suffix(Without(ts, sid) + [(sid, timeout)], max)
  }

  function BumpRejected(s: State): State {
    s.(totals := s.totals.(rejected := s.totals.rejected + 1))
  }

  function BumpEvicted(s: State): State {
    s.(totals := s.totals.(evicted := s.totals.evicted + 1))
  }

  function BumpDeleted(s: State): State {
    s.(totals := s.totals.(deleted := s.totals.deleted + 1))
  }

  // ---- create --------------------------------------------------------------------

  /** At capacity: evict the oldest idle session, or refuse. */
  function FirstPass(s: State, requested: Option<int>): State {
    match Oldest(s)
    case None => Spawn(BumpRejected(s), Failed(0))
    case Some(v) => Spawn(BeginClose(s, v), EvictFirst(v, requested))
  }

  function CreateCall(s: State, requested: Option<int>): State {
    if |s.live| < s.cfg.maxSessions then Spawn(s, Launching(requested, None, 0)) else FirstPass(s, requested)
  }

  function EvictFirstDone(s: State, t: Task): State
    requires t < |s.tasks| && s.tasks[t].EvictFirst?
  {
    var pc := s.tasks[t];
    WithTask(BumpEvicted(Pop(s, pc.victim)), t, Launching(pc.requested, Some(pc.victim), 1))
  }

  function Admit(s: State, t: Task, requested: Option<int>, eng: Eng, reported: Option<Sid>, evictions: nat): State
    requires t < |s.tasks|
  {
    WithTask(Insert(s, requested, eng), t, Created(|s.recs|, reported, evictions))
  }

  /** Capacity was filled while the engine session was starting: one more pass, or give up. */
  function SecondPass(s: State, t: Task, requested: Option<int>, earlier: Option<Sid>, eng: Eng, evictions: nat): State
    requires t < |s.tasks|
  {
    match Oldest(s)
    case None => WithTask(CallClose(s, eng), t, Rejecting(eng, evictions))
    case Some(v) => WithTask(BeginClose(s, v), t, EvictSecond(v, requested, earlier, eng, evictions))
  }

  function Settle(s: State, t: Task, requested: Option<int>, evicted: Option<Sid>, eng: Eng, evictions: nat): State
    requires t < |s.tasks|
  {
    if |s.live| < s.cfg.maxSessions
    then Admit(s, t, requested, eng, evicted, evictions)
    else SecondPass(s, t, requested, evicted, eng, evictions)
  }

  function LaunchDone(s: State, t: Task): State
    requires t < |s.tasks| && s.tasks[t].Launching?
  {
    var pc := s.tasks[t];
    Settle(s.(nextEng := s.nextEng + 1), t, pc.requested, pc.evicted, s.nextEng, pc.evictions)
  }

  function LaunchFailed(s: State, t: Task): State
    requires t < |s.tasks| && s.tasks[t].Launching?
  {
    WithTask(s, t, Failed(s.tasks[t].evictions))
  }

  function RejectDone(s: State, t: Task): State
    requires t < |s.tasks| && s.tasks[t].Rejecting?
  {
    WithTask(BumpRejected(s), t, Failed(s.tasks[t].evictions))
  }

  /** The second pass inserts without looking at the capacity a third time. */
  function EvictSecondDone(s: State, t: Task): State
    requires t < |s.tasks| && s.tasks[t].EvictSecond?
  {
    var pc := s.tasks[t];
    var late := if pc.victim in s.live then 0 else 1;
    var s1 := BumpEvicted(Pop(s, pc.victim));
    var s2 := s1.(ledger := s1.ledger.(lateInserts := s1.ledger.lateInserts + late));
    Admit(s2, t, pc.requested, pc.eng, Some(pc.victim), pc.evictions + 1)
  }

  // ---- requests that take the session lock -----------------------------------------

  /**
    An action, a delete or a status probe calls `get`.  The first two then wait for a fresh
    task to acquire the lock; the probe looks at the flag and acquires in the same segment,
    and answers at once, without the lock, when it is held.
  */
  function Call(s: State, kind: Kind, sid: Sid): State {
    if !Get(s, sid).Found? then Spawn(s, Ended)
    else if kind != Probe then Spawn(s, Got(kind, sid))
    else if Locked(s.recs[sid].lock) then Spawn(s, Ended)
    else Enter(Spawn(s, Ended), |s.tasks|, kind, sid)
  }

  /** Actions and deletes wait for the lock under `wait_for`; a probe just awaits it. */
  function Asker(t: Task, kind: Kind): Who {
    Request(t, kind != Probe)
  }

  /** Task t calls `acquire` and either gets the lock at once or queues. */
  function Enter(s: State, t: Task, kind: Kind, sid: Sid): State
    requires t < |s.tasks| && sid < |s.recs|
  {
    var l := s.recs[sid].lock;
    WithTask(WithLock(s, sid, Acquire(l, Asker(t, kind))), t,
             if !CanTake(l) then Waiting(kind, sid)
             else if kind == Probe then Body(kind, sid)
             else Holding(kind, sid))
  }

  function WaiterRuns(s: State, t: Task): State
    requires t < |s.tasks| && s.tasks[t].Waiting? && s.tasks[t].sid < |s.recs|
    requires Asker(t, s.tasks[t].kind) in Queue(s.recs[s.tasks[t].sid].lock)
  {
    var kind, sid := s.tasks[t].kind, s.tasks[t].sid;
    WithTask(WithLock(s, sid, Resume(s.recs[sid].lock, Asker(t, kind))), t,
             if kind == Probe then Body(kind, sid) else Holding(kind, sid))
  }

  /** The deadline passes before the acquiring task ran, or while its future is pending. */
  function TimesOut(s: State, t: Task): State
    requires t < |s.tasks| && (s.tasks[t].Got? || s.tasks[t].Waiting?) && s.tasks[t].sid < |s.recs|
    requires s.tasks[t].Waiting? ==> Asker(t, s.tasks[t].kind) in Queue(s.recs[s.tasks[t].sid].lock)
  {
    if s.tasks[t].Got? then WithTask(s, t, Ended)
    else WithLock(s, s.tasks[t].sid, Cancel(s.recs[s.tasks[t].sid].lock, Asker(t, s.tasks[t].kind)))
  }

  /** A cancelled acquire, or one cancelled after it was woken, runs and gives up. */
  function GivesUp(s: State, t: Task): State
    requires t < |s.tasks| && s.tasks[t].Waiting? && s.tasks[t].sid < |s.recs|
    requires Asker(t, s.tasks[t].kind) in Queue(s.recs[s.tasks[t].sid].lock)
  {
    var sid := s.tasks[t].sid;
    WithTask(WithLock(s, sid, Abandon(s.recs[sid].lock, Asker(t, s.tasks[t].kind))), t, Ended)
  }

  /** `_run_action` counts the action; `delete` hides the record and starts closing it. */
  function BodyStarts(s: State, t: Task): State
    requires t < |s.tasks| && s.tasks[t].Holding? && s.tasks[t].sid < |s.recs|
  {
    var kind, sid := s.tasks[t].kind, s.tasks[t].sid;
    var s1 := if kind == Delete then BeginClose(s, sid)
              else s.(totals := s.totals.(actions := s.totals.actions + 1));
    WithTask(s1, t, Body(kind, sid))
  }

  function Touch(s: State, sid: Sid): State
    requires sid < |s.recs|
  {
    s.(recs := s.recs[sid := s.recs[sid].(lastUsed := s.now)])
  }

  function AccountFor(s: State, sid: Sid, o: Outcome): State
    requires sid < |s.recs|
  {
    var s1 := if BumpsIdleClock(o) then Touch(s, sid) else s;
    if CountsAsError(o) then s1.(totals := s1.totals.(actionErrors := s1.totals.actionErrors + 1)) else s1
  }

  /** The work of the body is over; its `finally` releases the lock. */
  function LetGo(s: State, t: Task): State
    requires t < |s.tasks| && s.tasks[t].Body? && s.tasks[t].sid < |s.recs|
  {
    var sid := s.tasks[t].sid;
    WithTask(WithLock(s, sid, Release(s.recs[sid].lock)), t, Ended)
  }

  function BodyEnds(s: State, t: Task, o: Outcome): State
    requires t < |s.tasks| && s.tasks[t].Body? && s.tasks[t].sid < |s.recs|
  {
    match s.tasks[t].kind
    case Action => LetGo(AccountFor(s, s.tasks[t].sid, o), t)
    case Delete => LetGo(BumpDeleted(Pop(s, s.tasks[t].sid)), t)
    case Probe => LetGo(s, t)
  }

  // ---- the operator's reset --------------------------------------------------------

  function PurgeNext(s: State, t: Task, todo: seq<Sid>): State
    requires t < |s.tasks| && Within(todo, |s.recs|)
  {
    if |todo| == 0 then WithTask(s, t, Ended)
    else WithTask(BeginClose(s, todo[0]), t, Purging(todo[0], todo[1..]))
  }

  function ResetCall(s: State): State {
    PurgeNext(Spawn(s, Ended), |s.tasks|, Snapshot(s))
  }

  function PurgeDone(s: State, t: Task): State
    requires t < |s.tasks| && s.tasks[t].Purging? && Within(s.tasks[t].rest, |s.recs|)
  {
    PurgeNext(BumpDeleted(Pop(s, s.tasks[t].sid)), t, s.tasks[t].rest)
  }

  // ---- the reaper ------------------------------------------------------------------

  function Claim(s: State, passNow: real, sid: Sid, rest: seq<Sid>): State
    requires sid < |s.recs|
  {
    var l := s.recs[sid].lock;
    var sight := Sighting(sid, s.now, s.recs[sid].lastUsed);
    var s1 := WithLock(MarkClosing(s, sid), sid, Acquire(l, Reaper));
    if CanTake(l)
    then CallClose(s1, s.recs[sid].eng).(reaper := Teardown(sight, passNow, rest))
    else s1.(reaper := LockWait(sight, passNow, rest))
  }

  /** The loop of a pass, up to the next record it claims. */
  function Scan(s: State, passNow: real, todo: seq<Sid>): State
    requires Within(todo, |s.recs|)
    decreases |todo|
  {
    if |todo| == 0 then s.(reaper := Asleep)
    else if Reapable(s, passNow, todo[0]) then Claim(s, passNow, todo[0], todo[1..])
    else Scan(s, passNow, todo[1..])
  }

  function Drop(s: State, sid: Sid, rest: seq<Sid>): State
    requires sid < |s.recs|
  {
    CallClose(s, s.recs[sid].eng).(live := s.live - {sid},
      ledger := s.ledger.(dropped := s.ledger.dropped + 1), reaper := Sweeping(rest))
  }

  /** The mass drop of a pass that finds the engine dead, up to the next engine close. */
  function Sweep(s: State, todo: seq<Sid>): State
    requires Within(todo, |s.recs|)
    decreases |todo|
  {
    if |todo| == 0 then s.(reaper := Asleep)
    else if todo[0] in s.live then Drop(s, todo[0], todo[1..])
    else Sweep(s, todo[1..])
  }

  function PassStarts(s: State, alive: bool): State {
    if alive then Scan(s, s.now, Snapshot(s)) else Sweep(s, Snapshot(s))
  }

  function ReaperLocks(s: State): State
    requires s.reaper.LockWait? && s.reaper.claim.sid < |s.recs|
    requires Reaper in Queue(s.recs[s.reaper.claim.sid].lock)
  {
    var sid := s.reaper.claim.sid;
    CallClose(WithLock(s, sid, Resume(s.recs[sid].lock, Reaper)), s.recs[sid].eng)
    .(reaper := Teardown(s.reaper.claim, s.reaper.passNow, s.reaper.rest))
  }

  /** The claimed session is popped, tombstoned and counted; its lock is never released. */
  function Bury(s: State): State
    requires s.reaper.Teardown? && s.reaper.claim.sid < |s.recs|
  {
    var sid := s.reaper.claim.sid;
    var s1 := WithLock(Pop(s, sid), sid, s.recs[sid].lock.(holder := Retired));
    s1.(tombstones := TombstoneAdd(s.tombstones, sid, s.recs[sid].idleTimeout, s.cfg.tombstoneMax),
        totals := s1.totals.(reaped := s1.totals.reaped + 1),
        reapLog := s1.reapLog + [s.reaper.claim],
        reaper := Asleep)
  }

  function ReapDone(s: State): State
    requires s.reaper.Teardown? && s.reaper.claim.sid < |s.recs|
    requires Within(s.reaper.rest, |s.recs|)
  {
    Scan(Bury(s), s.reaper.passNow, s.reaper.rest)
  }

  function SweepDone(s: State): State
    requires s.reaper.Sweeping? && Within(s.reaper.rest, |s.recs|)
  {
    Sweep(s, s.reaper.rest)
  }

  // ---- steps and runs --------------------------------------------------------------

  datatype Event =
    | Tick(dt: real)
    | ECreateCall(requested: Option<int>)
    | EEvictFirstDone(t: Task)
    | ELaunchDone(t: Task)
    | ELaunchFailed(t: Task)
    | ERejectDone(t: Task)
    | EEvictSecondDone(t: Task)
    | ECall(kind: Kind, sid: Sid)
    | EAcquireRuns(t: Task)
    | EWaiterRuns(t: Task)
    | ETimesOut(t: Task)
    | EGivesUp(t: Task)
    | EBodyStarts(t: Task)
    | EBodyEnds(t: Task, outcome: Outcome)
    | EResetCall
    | EPurgeDone(t: Task)
    | EPassStarts(alive: bool)
    | EReaperLocks
    | EReapDone
    | ESweepDone

  /** Every id that is registered, held by a suspended task or logged names an issued record. */
  predicate Shape(s: State) {
    && (forall x :: x in s.live ==> x < |s.recs|)
    && (forall t :: 0 <= t < |s.tasks| ==> PcShape(s.tasks[t], |s.recs|, s.nextEng))
    && ReaperShape(s.reaper, |s.recs|)
    && (forall i :: 0 <= i < |s.reapLog| ==> s.reapLog[i].sid < |s.recs|)
    && (forall i :: 0 <= i < |s.recs| ==> s.recs[i].eng < s.nextEng)
    && (forall e :: e in s.closed ==> e < s.nextEng)
  }

  predicate PcShape(pc: Pc, n: nat, engines: nat) {
    match pc
    case EvictFirst(v, _) => v < n
    case EvictSecond(v, _, _, eng, _) => v < n && eng < engines
    case Rejecting(eng, _) => eng < engines
    case Got(kind, sid) => sid < n && kind != Probe
    case Waiting(_, sid) => sid < n
    case Holding(kind, sid) => sid < n && kind != Probe
    case Body(_, sid) => sid < n
    case Purging(sid, rest) => sid < n && Within(rest, n)
    case Created(sid, _, _) => sid < n
    case _ => true
  }

  predicate ReaperShape(pc: ReaperPc, n: nat) {
    match pc
    case Asleep => true
    case Sweeping(rest) => Within(rest, n)
    case LockWait(claim, _, rest) => claim.sid < n && Within(rest, n)
    case Teardown(claim, _, rest) => claim.sid < n && Within(rest, n)
  }

  predicate QueuedAs(s: State, t: Task, status: WaitStatus) {
    && t < |s.tasks| && s.tasks[t].Waiting? && s.tasks[t].sid < |s.recs|
    && IsWaiting(s.recs[s.tasks[t].sid].lock, Asker(t, s.tasks[t].kind), status)
  }

  predicate Enabled(s: State, e: Event)
    requires Shape(s)
  {
    match e
    case Tick(dt) => dt >= 0.0
    case ECreateCall(_) => true
    case EEvictFirstDone(t) => t < |s.tasks| && s.tasks[t].EvictFirst?
    case ELaunchDone(t) => t < |s.tasks| && s.tasks[t].Launching?
    case ELaunchFailed(t) => t < |s.tasks| && s.tasks[t].Launching?
    case ERejectDone(t) => t < |s.tasks| && s.tasks[t].Rejecting?
    case EEvictSecondDone(t) => t < |s.tasks| && s.tasks[t].EvictSecond?
    case ECall(_, _) => true
    case EAcquireRuns(t) => t < |s.tasks| && s.tasks[t].Got?
    case EWaiterRuns(t) => QueuedAs(s, t, Woken)
    case ETimesOut(t) =>
      || (t < |s.tasks| && s.tasks[t].Got?)
      || (QueuedAs(s, t, Pending) && s.tasks[t].kind != Probe)
    case EGivesUp(t) =>
      || QueuedAs(s, t, Cancelled)
      || (QueuedAs(s, t, Woken) && s.tasks[t].kind != Probe)
    case EBodyStarts(t) => t < |s.tasks| && s.tasks[t].Holding?
    case EBodyEnds(t, _) => t < |s.tasks| && s.tasks[t].Body?
    case EResetCall => true
    case EPurgeDone(t) => t < |s.tasks| && s.tasks[t].Purging?
    case EPassStarts(_) => s.reaper.Asleep?
    case EReaperLocks => s.reaper.LockWait? && IsWaiting(s.recs[s.reaper.claim.sid].lock, Reaper, Woken)
    case EReapDone => s.reaper.Teardown?
    case ESweepDone => s.reaper.Sweeping?
  }

  function Apply(s: State, e: Event): State
    requires Shape(s) && Enabled(s, e)
  {
    match e
    case Tick(dt) => s.(now := s.now + dt)
    case ECreateCall(requested) => CreateCall(s, requested)
    case EEvictFirstDone(t) => EvictFirstDone(s, t)
    case ELaunchDone(t) => LaunchDone(s, t)
    case ELaunchFailed(t) => LaunchFailed(s, t)
    case ERejectDone(t) => RejectDone(s, t)
    case EEvictSecondDone(t) => EvictSecondDone(s, t)
    case ECall(kind, sid) => Call(s, kind, sid)
    case EAcquireRuns(t) => Enter(s, t, s.tasks[t].kind, s.tasks[t].sid)
    case EWaiterRuns(t) => WaiterRuns(s, t)
    case ETimesOut(t) => TimesOut(s, t)
    case EGivesUp(t) => GivesUp(s, t)
    case EBodyStarts(t) => BodyStarts(s, t)
    case EBodyEnds(t, o) => BodyEnds(s, t, o)
    case EResetCall => ResetCall(s)
    case EPurgeDone(t) => PurgeDone(s, t)
    case EPassStarts(alive) => PassStarts(s, alive)
    case EReaperLocks => ReaperLocks(s)
    case EReapDone => ReapDone(s)
    case ESweepDone => SweepDone(s)
  }

  /** Every event of the run is enabled when its turn comes. */
  ghost predicate Legal(s: State, es: seq<Event>)
    decreases |es|
  {
    |es| == 0 || (Shape(s) && Enabled(s, es[0]) && Legal(Apply(s, es[0]), es[1..]))
  }

  ghost function Exec(s: State, es: seq<Event>): State
    requires Legal(s, es)
    decreases |es|
  {
    if |es| == 0 then s else Exec(Apply(s, es[0]), es[1..])
  }
}
