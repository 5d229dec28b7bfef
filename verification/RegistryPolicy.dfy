/** Which sessions the reaper and the eviction choose, and what an undisturbed run of each does. */
module RegistryPolicy {
  import opened Common
  import opened AsyncLock
  import opened HttpErrors
  import opened Registry
  import opened RegistryInv
  import opened RegistrySteps

  // ---- the reaper ------------------------------------------------------------------------

  predicate IdleTooLong(s: State, sid: Sid) {
    sid < |s.recs| && s.now - s.recs[sid].lastUsed > s.recs[sid].idleTimeout as real
  }

  lemma ScanClaimIsSound(s: State, passNow: real, todo: seq<Sid>, sid: Sid)
    requires Inv(s) && s.reaper.Asleep? && Within(todo, |s.recs|) && Visitable(s, todo) && passNow <= s.now
    requires ClaimedBy(Scan(s, passNow, todo), Reaper, sid)
    ensures sid in todo && sid in s.live && !s.recs[sid].closing && !Locked(s.recs[sid].lock) && IdleTooLong(s, sid)
  {
    var k := ScanCases(s, passNow, todo);
    if k < |todo| {
      assert todo[k] == sid;
    }
  }

  lemma OnlyReaperEvents(s: State, e: Event)
    requires Shape(s) && Enabled(s, e) && !IsReaper(e)
    ensures Apply(s, e).reaper == s.reaper
  {
  }

  lemma NextClaimIsSound(s: State, sid: Sid)
    requires Inv(s) && Enabled(s, EReapDone) && ClaimedBy(Apply(s, EReapDone), Reaper, sid)
    ensures sid < |s.recs| && sid in s.live && !s.recs[sid].closing && !Locked(s.recs[sid].lock) && IdleTooLong(s, sid)
  {
    KeepsBury(s);
    assert ClaimedBy(s, Reaper, s.reaper.claim.sid);
    ScanClaimIsSound(Bury(s), s.reaper.passNow, s.reaper.rest, sid);
  }

  /**
    Whenever the reaper takes a session, that session is registered, not hidden, used by
    nobody, and idle for longer than its own timeout by the clock of that moment, although
    the pass compared it with a clock it read once, when it began.
  */
  lemma ReaperClaimIsSound(s: State, e: Event, sid: Sid)
    requires Inv(s) && Enabled(s, e)
    requires ClaimedBy(Apply(s, e), Reaper, sid) && !ClaimedBy(s, Reaper, sid)
    ensures sid < |s.recs| && sid in s.live && !s.recs[sid].closing && IdleTooLong(s, sid)
    ensures forall who :: PhaseOf(s, who, sid) != Holds
  {
    if !IsReaper(e) {
      OnlyReaperEvents(s, e);
    } else if e.EPassStarts? {
      var _ := SweepCases(s, Snapshot(s));
      ScanClaimIsSound(s, s.now, Snapshot(s), sid);
    } else if e.EReapDone? {
      NextClaimIsSound(s, sid);
    } else if e.ESweepDone? {
      var _ := SweepCases(s, s.reaper.rest);
    }
    assert LockOk(s, sid);
  }

  /** What an undisturbed pass should remove. */
  function IdleSet(s: State, passNow: real, todo: seq<Sid>): set<Sid>
    requires Within(todo, |s.recs|)
  {
    set i | 0 <= i < |todo| && Reapable(s, passNow, todo[i]) :: todo[i]
  }

  ghost predicate Drained(s: State, s': State, gone: set<Sid>) {
    && s'.reaper == Asleep && s'.live == s.live - gone && |s'.recs| == |s.recs|
    && s'.tasks == s.tasks && s'.now == s.now
    && s'.totals == s.totals.(reaped := s.totals.reaped + |gone|)
    && (forall x :: 0 <= x < |s.recs| && x !in gone ==> s'.recs[x] == s.recs[x])
    && (forall x: Sid :: x in gone || Reaped(s, x) ==> Reaped(s', x))
  }

  /** What a pass over `todo` needs in order to finish without waiting for anybody. */
  ghost predicate Ready(s: State, passNow: real, todo: seq<Sid>) {
    && s.reaper == Asleep && Within(todo, |s.recs|) && passNow <= s.now
    && (forall i, j :: 0 <= i < j < |todo| ==> todo[i] < todo[j])
    && (forall i :: 0 <= i < |todo| ==>
          todo[i] in s.live && (Reapable(s, passNow, todo[i]) ==> CanTake(s.recs[todo[i]].lock)))
  }

  ghost predicate OneReaped(s: State, b: State, x: Sid) {
    && b.reaper == Asleep && x in s.live && b.live == s.live - {x} && |b.recs| == |s.recs|
    && b.tasks == s.tasks && b.now == s.now && b.totals == s.totals.(reaped := s.totals.reaped + 1)
    && (forall y :: 0 <= y < |s.recs| && y != x ==> b.recs[y] == s.recs[y])
    && Reaped(b, x) && (forall y: Sid :: Reaped(s, y) ==> Reaped(b, y))
  }

  lemma DrainedChain(s: State, b: State, s': State, x: Sid, gone: set<Sid>)
    requires OneReaped(s, b, x) && Drained(b, s', gone) && x !in gone
    ensures Drained(s, s', {x} + gone)
  {
  }

  /** Reaping the first session leaves every other record, and so the rest of the pass, as it was. */
  lemma BuriedRest(s: State, passNow: real, todo: seq<Sid>)
    requires Inv(s) && |todo| > 0 && Ready(s, passNow, todo) && Reapable(s, passNow, todo[0])
    ensures var b := Bury(Claim(s, passNow, todo[0], todo[1..]));
      OneReaped(s, b, todo[0]) && Within(todo[1..], |b.recs|)
      && IdleSet(b, passNow, todo[1..]) == IdleSet(s, passNow, todo[1..])
  {
    OneIsReaped(s, passNow, todo[0], todo[1..]);
    SameIdleSet(s, Bury(Claim(s, passNow, todo[0], todo[1..])), passNow, todo);
  }

  lemma OneIsReaped(s: State, passNow: real, x: Sid, rest: seq<Sid>)
    requires Shape(s) && x < |s.recs| && x in s.live && Reapable(s, passNow, x) && CanTake(s.recs[x].lock)
    ensures OneReaped(s, Bury(Claim(s, passNow, x, rest)), x)
  {
    var b := Bury(Claim(s, passNow, x, rest));
    assert b.reapLog[|s.reapLog|].sid == x;
    forall y: Sid | Reaped(s, y) ensures Reaped(b, y) {
      var i :| 0 <= i < |s.reapLog| && s.reapLog[i].sid == y;
      assert b.reapLog[i].sid == y;
    }
  }

  lemma SameIdleSet(s: State, b: State, passNow: real, todo: seq<Sid>)
    requires |todo| > 0 && Ready(s, passNow, todo) && OneReaped(s, b, todo[0])
    ensures Within(todo[1..], |b.recs|) && IdleSet(b, passNow, todo[1..]) == IdleSet(s, passNow, todo[1..])
  {
  }

  lemma ReadyRest(s: State, b: State, passNow: real, todo: seq<Sid>)
    requires |todo| > 0 && Ready(s, passNow, todo)
    requires b == s || OneReaped(s, b, todo[0])
    ensures Ready(b, passNow, todo[1..]) && todo[0] !in IdleSet(s, passNow, todo[1..])
  {
  }

  lemma {:induction false} ScanDrains(s: State, passNow: real, todo: seq<Sid>) returns (es: seq<Event>)
    requires Inv(s) && Ready(s, passNow, todo)
    ensures forall e :: e in es ==> e == EReapDone
    ensures Legal(Scan(s, passNow, todo), es)
    ensures Drained(s, Exec(Scan(s, passNow, todo), es), IdleSet(s, passNow, todo))
    decreases |todo|, 1
  {
    if |todo| == 0 {
      es := [];
      assert Scan(s, passNow, todo) == s;
    } else {
      IdleSetSkips(s, passNow, todo);
      if !Reapable(s, passNow, todo[0]) {
        ReadyRest(s, s, passNow, todo);
        es := ScanDrains(s, passNow, todo[1..]);
        assert IdleSet(s, passNow, todo) == IdleSet(s, passNow, todo[1..]);
      } else {
        es := ClaimDrains(s, passNow, todo);
      }
    }
  }

  lemma ClaimAndBury(s: State, passNow: real, todo: seq<Sid>)
    requires Inv(s) && |todo| > 0 && Ready(s, passNow, todo) && Reapable(s, passNow, todo[0])
    ensures var c, rest := Claim(s, passNow, todo[0], todo[1..]), todo[1..];
      && Inv(c) && Enabled(c, EReapDone) && Apply(c, EReapDone) == Scan(Bury(c), passNow, rest)
      && Inv(Bury(c)) && OneReaped(s, Bury(c), todo[0]) && Ready(Bury(c), passNow, rest)
      && IdleSet(Bury(c), passNow, rest) == IdleSet(s, passNow, rest) && todo[0] !in IdleSet(s, passNow, rest)
  {
    var c := Claim(s, passNow, todo[0], todo[1..]);
    assert Visitable(s, todo[1..]);
    KeepsClaim(s, passNow, todo[0], todo[1..]);
    KeepsBury(c);
    BuriedRest(s, passNow, todo);
    ReadyRest(s, Bury(c), passNow, todo);
  }

  lemma {:induction false} ClaimDrains(s: State, passNow: real, todo: seq<Sid>) returns (es: seq<Event>)
    requires Inv(s) && |todo| > 0 && Ready(s, passNow, todo) && Reapable(s, passNow, todo[0])
    ensures forall e :: e in es ==> e == EReapDone
    ensures Legal(Claim(s, passNow, todo[0], todo[1..]), es)
    ensures Drained(s, Exec(Claim(s, passNow, todo[0], todo[1..]), es), {todo[0]} + IdleSet(s, passNow, todo[1..]))
    decreases |todo|, 0
  {
    var c := Claim(s, passNow, todo[0], todo[1..]);
    var b := Bury(c);
    ClaimAndBury(s, passNow, todo);
    var tail := ScanDrains(b, passNow, todo[1..]);
    es := [EReapDone] + tail;
    LegalCons(c, EReapDone, tail);
    DrainedChain(s, b, Exec(c, es), todo[0], IdleSet(b, passNow, todo[1..]));
  }

  lemma LegalCons(s: State, e: Event, tail: seq<Event>)
    requires Shape(s) && Enabled(s, e) && Legal(Apply(s, e), tail)
    ensures Legal(s, [e] + tail) && Exec(s, [e] + tail) == Exec(Apply(s, e), tail)
  {
  }

  lemma IdleSetSkips(s: State, passNow: real, todo: seq<Sid>)
    requires Within(todo, |s.recs|) && |todo| > 0
    ensures IdleSet(s, passNow, todo) ==
      (if Reapable(s, passNow, todo[0]) then {todo[0]} else {}) + IdleSet(s, passNow, todo[1..])
  {
  }

  /** The sessions a pass should remove: registered, visible, free, and unused for longer than their own timeout. */
  function Overdue(s: State): set<Sid> {
    set x | x in s.live && x < |s.recs| && !s.recs[x].closing && !Locked(s.recs[x].lock) &&
            s.now - s.recs[x].lastUsed > s.recs[x].idleTimeout as real
  }

  lemma OverdueIsIdle(s: State)
    ensures Overdue(s) == IdleSet(s, s.now, Snapshot(s))
    ensures forall i :: 0 <= i < |Snapshot(s)| && Reapable(s, s.now, Snapshot(s)[i]) ==> Snapshot(s)[i] in Overdue(s)
  {
    var todo := Snapshot(s);
    assert forall i :: 0 <= i < |todo| ==> todo[i] in todo;
    forall x | x in Overdue(s) ensures x in IdleSet(s, s.now, todo) {
      assert x in todo;
      var i :| 0 <= i < |todo| && todo[i] == x;
      assert Reapable(s, s.now, todo[i]);
    }
  }

  /**
    A pass that nobody disturbs, over a live engine and with nobody queueing for an overdue
    session's lock, removes exactly the overdue sessions and changes no other record.
  */
  lemma UndisturbedPass(s: State) returns (es: seq<Event>)
    requires Inv(s) && s.reaper == Asleep && forall x: Sid :: x in Overdue(s) ==> CanTake(s.recs[x].lock)
    ensures forall e :: e in es ==> e == EReapDone
    ensures Legal(s, [EPassStarts(true)] + es)
    ensures Drained(s, Exec(s, [EPassStarts(true)] + es), Overdue(s))
  {
    OverdueIsIdle(s);
    assert forall i :: 0 <= i < |Snapshot(s)| ==> Snapshot(s)[i] in Snapshot(s);
    es := ScanDrains(s, s.now, Snapshot(s));
    LegalCons(s, EPassStarts(true), es);
  }

  /** Why a pass that compares with the clock reading `passNow` leaves a session alone. */
  predicate Kept(s: State, passNow: real, x: Sid)
    requires x < |s.recs|
  {
    s.recs[x].closing || Locked(s.recs[x].lock) || passNow - s.recs[x].lastUsed <= s.recs[x].idleTimeout as real
  }

  /** The first k sessions still to visit were passed over, and the next one, if any, was taken. */
  ghost predicate WalkedTo(s: State, s': State, passNow: real, todo: seq<Sid>, k: nat)
    requires Within(todo, |s.recs|) && k <= |todo|
  {
    && (forall i :: 0 <= i < k ==> Kept(s, passNow, todo[i]))
    && (k == |todo| ==> s'.reaper == Asleep)
    && (k < |todo| ==>
          && !Kept(s, passNow, todo[k])
          && ((s'.reaper.LockWait? && s'.reaper.claim.sid == todo[k] && s'.reaper.passNow == passNow &&
               s'.reaper.rest == todo[k + 1..]) ||
              (s'.reaper.Teardown? && s'.reaper.claim.sid == todo[k] && s'.reaper.passNow == passNow &&
               s'.reaper.rest == todo[k + 1..])))
  }

  /** A pass that begins passes over nobody without a reason. */
  lemma PassMissesNobody(s: State) returns (k: nat)
    requires Shape(s) && s.reaper == Asleep
    ensures k <= |Snapshot(s)| && WalkedTo(s, PassStarts(s, true), s.now, Snapshot(s), k)
  {
    k := ScanCases(s, s.now, Snapshot(s));
  }

  /** Nor does one that goes on after a reap, however long that took and whatever happened meanwhile. */
  lemma PassGoesOnMissingNobody(s: State) returns (k: nat)
    requires Inv(s) && s.reaper.Teardown?
    ensures k <= |s.reaper.rest| && WalkedTo(s, ReapDone(s), s.reaper.passNow, s.reaper.rest, k)
  {
    assert ClaimedBy(s, Reaper, s.reaper.claim.sid);
    k := ScanCases(Bury(s), s.reaper.passNow, s.reaper.rest);
    SameReasons(s);
  }

  lemma SameReasons(s: State)
    requires Shape(s) && s.reaper.Teardown? && s.recs[s.reaper.claim.sid].closing
    ensures forall x: Sid :: x < |s.recs| ==> (Kept(Bury(s), s.reaper.passNow, x) <==> Kept(s, s.reaper.passNow, x))
  {
  }

  // ---- eviction --------------------------------------------------------------------------

  /** Why an eviction leaves a registered session alone: hidden, in use, or used within the last five seconds. */
  predicate Spared(s: State, x: Sid)
    requires x < |s.recs|
  {
    s.recs[x].closing || Locked(s.recs[x].lock) || s.now - s.recs[x].lastUsed < 5.0
  }

  /**
    Whenever a create takes a victim, nobody is using that session, it has been idle for the
    whole window, and every registered session unused for even longer is spared for a reason.
  */
  lemma EvictionIsSound(s: State, e: Event, t: Task, v: Sid)
    requires Inv(s) && Enabled(s, e)
    requires ClaimedBy(Apply(s, e), Request(t, true), v) && !ClaimedBy(s, Request(t, true), v)
    ensures v < |s.recs| && v in s.live && !Spared(s, v)
    ensures forall x: Sid :: x in s.live && x < |s.recs| && s.recs[x].lastUsed < s.recs[v].lastUsed ==> Spared(s, x)
    ensures forall who :: PhaseOf(s, who, v) != Holds
    ensures |s.live| >= s.cfg.maxSessions
  {
    if e.ECreateCall? {
      assert IsOldest(s, v, |s.recs|);
    } else if e.ELaunchDone? {
      assert e.t == t;
      var s1 := s.(nextEng := s.nextEng + 1);
      assert IsOldest(s1, v, |s.recs|);
      SameCandidates(s, s1);
    } else {
      NoOtherEvictionClaim(s, e, t, v);
    }
    assert LockOk(s, v);
  }

  lemma SameCandidates(s: State, s1: State)
    requires s1 == s.(nextEng := s1.nextEng)
    ensures forall x: Sid :: Evictable(s1, x) <==> Evictable(s, x)
    ensures forall v: Sid :: IsOldest(s1, v, |s.recs|) <==> IsOldest(s, v, |s.recs|)
  {
  }

  lemma NoOtherEvictionClaim(s: State, e: Event, t: Task, v: Sid)
    requires Shape(s) && Enabled(s, e) && !e.ECreateCall? && !e.ELaunchDone?
    requires ClaimedBy(Apply(s, e), Request(t, true), v)
    ensures ClaimedBy(s, Request(t, true), v)
  {
    if IsReaper(e) {
      ReaperLeavesTasks(s, e);
    } else if e.EAcquireRuns? || e.EWaiterRuns? || e.ETimesOut? || e.EGivesUp? || e.EBodyStarts? || e.EBodyEnds? {
      RequestsClaimNothing(s, e, t, v);
    }
  }

  lemma RequestsClaimNothing(s: State, e: Event, t: Task, v: Sid)
    requires Shape(s) && Enabled(s, e) && ClaimedBy(Apply(s, e), Request(t, true), v)
    requires e.EAcquireRuns? || e.EWaiterRuns? || e.ETimesOut? || e.EGivesUp? || e.EBodyStarts? || e.EBodyEnds?
    ensures ClaimedBy(s, Request(t, true), v)
  {
  }

  lemma ReaperLeavesTasks(s: State, e: Event)
    requires Shape(s) && Enabled(s, e) && IsReaper(e)
    ensures Apply(s, e).tasks == s.tasks
  {
    if e.EPassStarts? {
      var _ := ScanCases(s, s.now, Snapshot(s));
      var _ := SweepCases(s, Snapshot(s));
    } else if e.EReapDone? {
      var _ := ScanCases(Bury(s), s.reaper.passNow, s.reaper.rest);
    } else if e.ESweepDone? {
      var _ := SweepCases(s, s.reaper.rest);
    }
  }

  /** A create is turned away exactly when the registry is full and no session may be evicted. */
  lemma RefusedIffNoCandidate(s: State, requested: Option<int>, t: Task)
    requires Shape(s)
    ensures CreateCall(s, requested).totals.rejected > s.totals.rejected
      <==> |s.live| >= s.cfg.maxSessions && forall c: Sid :: c in s.live ==> Spared(s, c)
    ensures Enabled(s, ELaunchDone(t)) ==> (LaunchDone(s, t).tasks[t].Rejecting?
      <==> |s.live| >= s.cfg.maxSessions && forall c: Sid :: c in s.live ==> Spared(s, c))
  {
    assert forall c: Sid :: c in s.live ==> (Evictable(s, c) <==> !Spared(s, c));
    SameCandidates(s, s.(nextEng := s.nextEng + 1));
    assert forall c: Sid :: Evictable(s, c) ==> c < |s.recs|;
  }

  lemma LegalThree(s: State, e1: Event, e2: Event, e3: Event)
    requires Shape(s) && Enabled(s, e1)
    requires Shape(Apply(s, e1)) && Enabled(Apply(s, e1), e2)
    requires Shape(Apply(Apply(s, e1), e2)) && Enabled(Apply(Apply(s, e1), e2), e3)
    ensures Legal(s, [e1, e2, e3])
    ensures Exec(s, [e1, e2, e3]) == Apply(Apply(Apply(s, e1), e2), e3)
  {
    LegalCons(Apply(Apply(s, e1), e2), e3, []);
    LegalCons(Apply(s, e1), e2, [e3]);
    LegalCons(s, e1, [e2, e3]);
    assert [e1, e2, e3] == [e1] + [e2, e3] && [e2, e3] == [e2] + [e3] && [e3] == [e3] + [];
  }

  /** The eviction half: afterwards the slot is free and the create is launching. */
  lemma UndisturbedEviction(s: State, requested: Option<int>)
    requires Shape(s) && |s.live| == s.cfg.maxSessions && Oldest(s).Some?
    ensures var t, v, s1 := |s.tasks|, Oldest(s).value, CreateCall(s, requested);
      && Shape(s1) && Enabled(s1, EEvictFirstDone(t))
      && var s2 := EvictFirstDone(s1, t);
      && Shape(s2) && s2.tasks == s.tasks + [Launching(requested, Some(v), 1)]
      && s2.live == s.live - {v} && |s2.live| == s.cfg.maxSessions - 1 && |s2.recs| == |s.recs|
      && s2.totals == s.totals.(evicted := s.totals.evicted + 1) && s2.cfg == s.cfg
  {
  }

  /**
    A create that nobody disturbs, on a full registry with an evictable session: the oldest
    one goes, the new one takes its place, and the caller is told which one went.
  */
  lemma UndisturbedCreate(s: State, requested: Option<int>)
    requires Shape(s) && |s.live| == s.cfg.maxSessions && exists x: Sid :: x in s.live && !Spared(s, x)
    ensures Oldest(s).Some? && IsLongestUnused(s, Oldest(s).value)
    ensures var t, v := |s.tasks|, Oldest(s).value;
      var es := [ECreateCall(requested), EEvictFirstDone(t), ELaunchDone(t)];
      Legal(s, es) &&
      var s' := Exec(s, es);
      s'.live == s.live - {v} + {|s.recs|} && |s'.live| == s.cfg.maxSessions
      && s'.tasks == s.tasks + [Created(|s.recs|, Some(v), 1)]
      && s'.totals == s.totals.(created := s.totals.created + 1, evicted := s.totals.evicted + 1)
  {
    var x: Sid :| x in s.live && !Spared(s, x);
    assert Evictable(s, x);
    LongestUnused(s);
    UndisturbedRun(s, requested);
    UndisturbedSwap(s, requested);
  }

  /** Registered, not spared, and the first among those unused for longest. */
  predicate IsLongestUnused(s: State, v: Sid)
    requires Shape(s)
  {
    && v in s.live && !Spared(s, v)
    && forall x: Sid :: x in s.live && !Spared(s, x) && x != v ==>
         s.recs[v].lastUsed < s.recs[x].lastUsed || (s.recs[v].lastUsed == s.recs[x].lastUsed && v < x)
  }

  lemma LongestUnused(s: State)
    requires Shape(s) && Oldest(s).Some?
    ensures IsLongestUnused(s, Oldest(s).value)
  {
    assert forall x: Sid :: x in s.live && !Spared(s, x) ==> Evictable(s, x);
  }

  /** Both halves together. */
  lemma UndisturbedSwap(s: State, requested: Option<int>)
    requires Shape(s) && |s.live| == s.cfg.maxSessions && Oldest(s).Some?
    ensures var t, v, s1 := |s.tasks|, Oldest(s).value, CreateCall(s, requested);
      && Shape(s1) && Enabled(s1, EEvictFirstDone(t)) && EvictFirstDone(s1, t).tasks[t].Launching?
      && var s' := LaunchDone(EvictFirstDone(s1, t), t);
      s'.live == s.live - {v} + {|s.recs|} && |s'.live| == s.cfg.maxSessions
      && s'.tasks == s.tasks + [Created(|s.recs|, Some(v), 1)]
      && s'.totals == s.totals.(created := s.totals.created + 1, evicted := s.totals.evicted + 1)
  {
    UndisturbedEviction(s, requested);
    UndisturbedLaunch(EvictFirstDone(CreateCall(s, requested), |s.tasks|), |s.tasks|);
    var v := Oldest(s).value;
    ReplaceLast(s.tasks, Launching(requested, Some(v), 1), Created(|s.recs|, Some(v), 1));
  }

  lemma ReplaceLast<T>(init: seq<T>, a: T, b: T)
    ensures (init + [a])[|init| := b] == init + [b]
  {
  }

  lemma UndisturbedRun(s: State, requested: Option<int>)
    requires Shape(s) && |s.live| == s.cfg.maxSessions && Oldest(s).Some?
    ensures var t := |s.tasks|;
      var es, s1 := [ECreateCall(requested), EEvictFirstDone(t), ELaunchDone(t)], CreateCall(s, requested);
      && Enabled(s1, EEvictFirstDone(t)) && Legal(s, es)
      && var s2 := EvictFirstDone(s1, t);
         s2.tasks[t].Launching? && Exec(s, es) == LaunchDone(s2, t)
  {
    var t := |s.tasks|;
    UndisturbedEviction(s, requested);
    UndisturbedLaunch(EvictFirstDone(CreateCall(s, requested), t), t);
    LegalThree(s, ECreateCall(requested), EEvictFirstDone(t), ELaunchDone(t));
  }

  /** The launch half: below capacity the new session is simply inserted. */
  lemma UndisturbedLaunch(s: State, t: Task)
    requires Shape(s) && t < |s.tasks| && s.tasks[t].Launching? && |s.live| < s.cfg.maxSessions
    ensures var s' := LaunchDone(s, t);
      && Shape(s') && s'.live == s.live + {|s.recs|} && |s'.live| == |s.live| + 1
      && s'.tasks == s.tasks[t := Created(|s.recs|, s.tasks[t].evicted, s.tasks[t].evictions)]
      && s'.totals == s.totals.(created := s.totals.created + 1)
  {
  }

  // ---- the mass drop ---------------------------------------------------------------------

  lemma SessionsNeedAnEngine(s: State)
    requires Shape(s)
    ensures |s.recs| > 0 ==> s.nextEng > 0
  {
    if |s.recs| > 0 {
      assert s.recs[0].eng < s.nextEng;
    }
  }

  /** A pass that finds the engine dead before it ever started a session has nothing to drop. */
  lemma UpKeepsSessions(s: State, e: Event)
    requires Inv(s) && Enabled(s, e) && !s.reaper.Sweeping? && (e == EPassStarts(false) ==> s.nextEng == 0)
    ensures !Apply(s, e).reaper.Sweeping? && Apply(s, e).ledger.dropped == s.ledger.dropped
  {
    if !IsReaper(e) {
      OnlyReaperEvents(s, e);
      OnlyReaperDrops(s, e);
    } else if e == EPassStarts(false) {
      var k := SweepCases(s, Snapshot(s));
      SessionsNeedAnEngine(s);
      assert Snapshot(s) == [];
    } else if e.EPassStarts? {
      var _ := ScanCases(s, s.now, Snapshot(s));
    } else if e.EReapDone? {
      var _ := ScanCases(Bury(s), s.reaper.passNow, s.reaper.rest);
    }
  }

  lemma OnlyReaperDrops(s: State, e: Event)
    requires Shape(s) && Enabled(s, e) && !IsReaper(e)
    ensures Apply(s, e).ledger.dropped == s.ledger.dropped
  {
  }
}
