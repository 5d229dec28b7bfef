/**
  The two loops that empty the registry: the operator's reset, and the mass drop of a pass that
  finds the engine dead.
*/
module RegistryReset {
  import opened Common
  import opened AsyncLock
  import opened HttpErrors
  import opened Registry
  import opened RegistryInv
  import opened RegistrySteps
  import opened RegistryTheorems
  import opened RegistryPolicy
  import opened RegistryProgress

  predicate Ascending(xs: seq<Sid>) {
    forall i, j :: 0 <= i < j < |xs| ==> xs[i] < xs[j]
  }

  function Elements(xs: seq<Sid>): set<Sid> {
    set x | x in xs
  }

  lemma {:induction false} AscendingSize(xs: seq<Sid>)
    requires Ascending(xs)
    ensures |Elements(xs)| == |xs|
  {
    if |xs| > 0 {
      AscendingSize(xs[1..]);
      assert xs[0] !in xs[1..];
      assert Elements(xs) == {xs[0]} + Elements(xs[1..]);
    }
  }

  lemma SnapshotIsLive(s: State)
    requires Shape(s)
    ensures Elements(Snapshot(s)) == s.live && |Snapshot(s)| == |s.live| && Ascending(Snapshot(s))
  {
    AscendingSize(Snapshot(s));
    assert Elements(Snapshot(s)) == s.live;
  }

  /** Closed, hidden and gone. */
  predicate Removed(s: State, x: Sid) {
    x < |s.recs| && x !in s.live && s.recs[x].closing && s.recs[x].eng in s.closed
  }

  lemma RemovedForGood(s: State, s': State, x: Sid)
    requires Later(s, s') && Removed(s, x)
    ensures Removed(s', x)
  {
  }

  // ---- a reset that nobody disturbs ------------------------------------------------------

  /** What is left when task t has purged these. */
  ghost predicate Purged(s: State, s': State, t: Task, gone: seq<Sid>)
    requires t < |s.tasks|
  {
    && s'.live == s.live - Elements(gone) && s'.tasks == s.tasks[t := Ended]
    && s'.totals == s.totals.(deleted := s.totals.deleted + |gone|)
    && forall x :: x in gone ==> Removed(s', x)
  }

  /** Where the task of a reset is that has these still to purge. */
  function Resetting(todo: seq<Sid>): Pc {
    if |todo| == 0 then Ended else Purging(todo[0], todo[1..])
  }

  /** One record of a reset: the pop, the count, and the next one hidden and closed, or the end. */
  lemma PurgesOne(s: State, t: Task, todo: seq<Sid>)
    requires Inv(s) && t < |s.tasks| && |todo| > 0 && s.tasks[t] == Resetting(todo) && todo[0] in s.live
    ensures Enabled(s, EPurgeDone(t))
    ensures var s1 := PurgeDone(s, t);
      && Inv(s1) && Removed(s1, todo[0]) && s1.live == s.live - {todo[0]}
      && s1.totals == s.totals.(deleted := s.totals.deleted + 1)
      && s1.tasks == s.tasks[t := Resetting(todo[1..])]
  {
    KeepsInv(s, EPurgeDone(t));
    assert ClosedBy(s.tasks[t]) == Some(todo[0]);
    assert IsClosing(s, todo[0]);
    StepIsLater(s, EPurgeDone(t));
  }

  function Times(e: Event, n: nat): seq<Event> {
    if n == 0 then [] else [e] + Times(e, n - 1)
  }

  lemma AscendingRest(s: State, todo: seq<Sid>)
    requires Ascending(todo) && |todo| > 0 && forall x :: x in todo ==> x in s.live
    ensures Ascending(todo[1..]) && todo[0] in todo && todo[0] !in todo[1..]
    ensures forall x :: x in todo[1..] ==> x in s.live - {todo[0]}
  {
  }

  lemma {:induction false} PurgesAll(s: State, t: Task, todo: seq<Sid>)
    requires Inv(s) && t < |s.tasks| && s.tasks[t] == Resetting(todo)
    requires Ascending(todo) && forall x :: x in todo ==> x in s.live
    ensures Legal(s, Times(EPurgeDone(t), |todo|))
    ensures Purged(s, Exec(s, Times(EPurgeDone(t), |todo|)), t, todo)
    decreases |todo|
  {
    if |todo| > 0 {
      AscendingRest(s, todo);
      PurgesOne(s, t, todo);
      var s1, more := PurgeDone(s, t), Times(EPurgeDone(t), |todo| - 1);
      PurgesAll(s1, t, todo[1..]);
      LegalCons(s, EPurgeDone(t), more);
      PurgedFirst(s1, more, todo[0]);
      PurgedChain(s, s1, Exec(s1, more), t, todo);
    }
  }

  lemma PurgedFirst(s: State, es: seq<Event>, x: Sid)
    requires Legal(s, es) && Removed(s, x)
    ensures Removed(Exec(s, es), x)
  {
    RunIsLater(s, es);
    RemovedForGood(s, Exec(s, es), x);
  }

  lemma PurgedChain(s: State, s1: State, s': State, t: Task, todo: seq<Sid>)
    requires t < |s.tasks| && |todo| > 0 && s1.live == s.live - {todo[0]}
    requires s1.totals == s.totals.(deleted := s.totals.deleted + 1)
    requires s1.tasks == s.tasks[t := Resetting(todo[1..])]
    requires Purged(s1, s', t, todo[1..]) && Removed(s', todo[0])
    ensures Purged(s, s', t, todo)
  {
    assert Elements(todo) == {todo[0]} + Elements(todo[1..]);
    forall x | x in todo ensures Removed(s', x) {
      assert x == todo[0] || x in todo[1..];
    }
  }

  /**
    A reset that nobody disturbs empties the registry, whatever state it finds: every session is
    hidden and closed, each is counted as deleted, and no lock is waited for.
  */
  lemma UndisturbedReset(s: State)
    requires Inv(s)
    ensures var es := [EResetCall] + Times(EPurgeDone(|s.tasks|), |s.live|);
      && Legal(s, es)
      && var s' := Exec(s, es);
      && s'.live == {} && s'.totals == s.totals.(deleted := s.totals.deleted + |s.live|)
      && s'.tasks == s.tasks + [Ended]
      && forall x :: x in s.live ==> Removed(s', x)
  {
    var t, todo, s1 := |s.tasks|, Snapshot(s), ResetCall(s);
    SnapshotIsLive(s);
    KeepsInv(s, EResetCall);
    ResetBegins(s);
    PurgesAll(s1, t, todo);
    LegalCons(s, EResetCall, Times(EPurgeDone(t), |s.live|));
    EmptiedBy(s, s1, Exec(s1, Times(EPurgeDone(t), |s.live|)), todo);
  }

  lemma EmptiedBy(s: State, s1: State, s': State, todo: seq<Sid>)
    requires s1.live == s.live && s1.totals == s.totals && s1.tasks == s.tasks + [Resetting(todo)]
    requires Elements(todo) == s.live && |todo| == |s.live| && Purged(s1, s', |s.tasks|, todo)
    ensures s'.live == {} && s'.totals == s.totals.(deleted := s.totals.deleted + |s.live|)
    ensures s'.tasks == s.tasks + [Ended] && forall x :: x in s.live ==> Removed(s', x)
  {
    forall x | x in s.live ensures x in todo {
      assert x in Elements(todo);
    }
    ReplaceLast(s.tasks, Resetting(todo), Ended);
  }

  lemma ResetBegins(s: State)
    requires Shape(s)
    ensures var s1 := ResetCall(s);
      && s1.live == s.live && s1.totals == s.totals && |s1.tasks| == |s.tasks| + 1
      && s1.tasks == s.tasks + [Resetting(Snapshot(s))]
  {
  }

  // ---- any reset ---------------------------------------------------------------------------

  /** The reset of task t has still to remove this session, or it has been removed. */
  predicate OnItsWay(s: State, t: Task, x: Sid) {
    || (t < |s.tasks| && s.tasks[t].Purging? && (s.tasks[t].sid == x || x in s.tasks[t].rest))
    || Removed(s, x)
  }

  lemma QueueLeavesReset(s: State, e: Event, t: Task)
    requires Shape(s) && Enabled(s, e) && t < |s.tasks| && s.tasks[t].Purging?
    requires e.EAcquireRuns? || e.EWaiterRuns? || e.ETimesOut? || e.EGivesUp? || e.Tick?
    ensures t < |Apply(s, e).tasks| && Apply(s, e).tasks[t] == s.tasks[t]
  {
  }

  lemma RequestLeavesReset(s: State, e: Event, t: Task)
    requires Shape(s) && Enabled(s, e) && t < |s.tasks| && s.tasks[t].Purging?
    requires e.ECall? || e.EBodyStarts? || e.EBodyEnds?
    ensures t < |Apply(s, e).tasks| && Apply(s, e).tasks[t] == s.tasks[t]
  {
  }

  lemma ResetLeavesReset(s: State, e: Event, t: Task)
    requires Shape(s) && Enabled(s, e) && t < |s.tasks| && s.tasks[t].Purging? && e != EPurgeDone(t)
    requires e.EResetCall? || e.EPurgeDone?
    ensures t < |Apply(s, e).tasks| && Apply(s, e).tasks[t] == s.tasks[t]
  {
  }

  lemma CreateLeavesReset(s: State, e: Event, t: Task)
    requires Shape(s) && Enabled(s, e) && t < |s.tasks| && s.tasks[t].Purging?
    requires e.ECreateCall? || e.EEvictFirstDone? || e.ELaunchFailed? || e.ERejectDone? || e.EEvictSecondDone?
    ensures t < |Apply(s, e).tasks| && Apply(s, e).tasks[t] == s.tasks[t]
  {
  }

  lemma LaunchLeavesReset(s: State, u: Task, t: Task)
    requires Shape(s) && Enabled(s, ELaunchDone(u)) && t < |s.tasks| && s.tasks[t].Purging?
    ensures t < |LaunchDone(s, u).tasks| && LaunchDone(s, u).tasks[t] == s.tasks[t]
  {
  }

  lemma OthersLeaveReset(s: State, e: Event, t: Task)
    requires Shape(s) && Enabled(s, e) && t < |s.tasks| && s.tasks[t].Purging? && e != EPurgeDone(t)
    ensures t < |Apply(s, e).tasks| && Apply(s, e).tasks[t] == s.tasks[t]
  {
    if IsReaper(e) {
      ReaperLeavesTasks(s, e);
    } else if e.EAcquireRuns? || e.EWaiterRuns? || e.ETimesOut? || e.EGivesUp? || e.Tick? {
      QueueLeavesReset(s, e, t);
    } else if e.ECall? || e.EBodyStarts? || e.EBodyEnds? {
      RequestLeavesReset(s, e, t);
    } else if e.EResetCall? || e.EPurgeDone? {
      ResetLeavesReset(s, e, t);
    } else if e.ELaunchDone? {
      LaunchLeavesReset(s, e.t, t);
    } else {
      CreateLeavesReset(s, e, t);
    }
  }

  lemma PurgeStepCovers(s: State, t: Task, x: Sid)
    requires Inv(s) && Enabled(s, EPurgeDone(t)) && (s.tasks[t].sid == x || x in s.tasks[t].rest)
    ensures OnItsWay(PurgeDone(s, t), t, x)
  {
    assert ClosedBy(s.tasks[t]) == Some(s.tasks[t].sid);
    assert IsClosing(s, s.tasks[t].sid);
    KeepsInv(s, EPurgeDone(t));
    StepIsLater(s, EPurgeDone(t));
    var rest := s.tasks[t].rest;
    if x != s.tasks[t].sid {
      var i :| 0 <= i < |rest| && rest[i] == x;
      assert i > 0 ==> rest[1..][i - 1] == x;
    }
  }

  lemma StaysOnItsWay(s: State, e: Event, t: Task, x: Sid)
    requires Inv(s) && Enabled(s, e) && OnItsWay(s, t, x)
    ensures OnItsWay(Apply(s, e), t, x)
  {
    StepIsLater(s, e);
    if Removed(s, x) {
      RemovedForGood(s, Apply(s, e), x);
    } else if e == EPurgeDone(t) {
      PurgeStepCovers(s, t, x);
    } else {
      OthersLeaveReset(s, e, t);
    }
  }

  lemma {:induction false} RunStaysOnItsWay(s: State, es: seq<Event>, t: Task, x: Sid)
    requires Inv(s) && Legal(s, es) && OnItsWay(s, t, x)
    ensures OnItsWay(Exec(s, es), t, x)
    decreases |es|
  {
    if |es| > 0 {
      StaysOnItsWay(s, es[0], t, x);
      KeepsInv(s, es[0]);
      RunStaysOnItsWay(Apply(s, es[0]), es[1..], t, x);
    }
  }

  /**
    Whatever else goes on meanwhile: when a reset has ended, every session that was registered as
    it began is hidden, closed and gone.
  */
  lemma ResetRemovesAll(s: State, es: seq<Event>, x: Sid)
    requires Reachable(s) && Shape(s) && x in s.live && Legal(ResetCall(s), es)
    requires |s.tasks| < |Exec(ResetCall(s), es).tasks| && Exec(ResetCall(s), es).tasks[|s.tasks|] == Ended
    ensures Removed(Exec(ResetCall(s), es), x)
  {
    ReachableInv(s);
    KeepsInv(s, EResetCall);
    ResetBegins(s);
    SnapshotIsLive(s);
    var todo := Snapshot(s);
    assert x in Elements(todo);
    assert x == todo[0] || x in todo[1..];
    assert OnItsWay(ResetCall(s), |s.tasks|, x);
    RunStaysOnItsWay(ResetCall(s), es, |s.tasks|, x);
  }

  // ---- a pass that finds the engine dead ---------------------------------------------------

  /** What is left when the mass drop has gone through these. */
  ghost predicate Dropped(s: State, s': State, gone: seq<Sid>) {
    && s'.live == s.live - Elements(gone) && s'.reaper == Asleep && s'.recs == s.recs && s'.tasks == s.tasks
    && s'.tombstones == s.tombstones && s'.totals == s.totals
    && s'.ledger == s.ledger.(dropped := s.ledger.dropped + |gone|)
    && s.closed <= s'.closed && forall x :: x in gone ==> x < |s.recs| && s.recs[x].eng in s'.closed
  }

  lemma {:induction false} SweepDropsAll(s: State, todo: seq<Sid>)
    requires Inv(s) && s.reaper == Asleep && Within(todo, |s.recs|)
    requires Ascending(todo) && forall x :: x in todo ==> x in s.live
    ensures Legal(Sweep(s, todo), Times(ESweepDone, |todo|))
    ensures Dropped(s, Exec(Sweep(s, todo), Times(ESweepDone, |todo|)), todo)
    decreases |todo|
  {
    if |todo| == 0 {
      assert Sweep(s, todo) == s;
    } else {
      var c, more := Drop(s, todo[0], todo[1..]), Times(ESweepDone, |todo| - 1);
      var c1 := c.(reaper := Asleep);
      AscendingRest(s, todo);
      DropsOne(s, todo[0], todo[1..]);
      SweepDropsAll(c1, todo[1..]);
      LegalCons(c, ESweepDone, more);
      DroppedChain(s, todo[0], todo[1..], Exec(Sweep(c1, todo[1..]), more), todo);
    }
  }

  lemma DropsOne(s: State, x: Sid, rest: seq<Sid>)
    requires Inv(s) && s.reaper == Asleep && Within(rest, |s.recs|) && x < |s.recs| && x in s.live
    ensures var c := Drop(s, x, rest);
      && Inv(c.(reaper := Asleep)) && Shape(c) && Enabled(c, ESweepDone)
      && Apply(c, ESweepDone) == Sweep(c.(reaper := Asleep), rest)
  {
    KeepsDrop(s, x, rest);
    KeepsRests(Drop(s, x, rest));
    SweepFromAsleep(Drop(s, x, rest), rest);
  }

  lemma DroppedChain(s: State, x: Sid, rest: seq<Sid>, s': State, todo: seq<Sid>)
    requires x < |s.recs| && s.reaper == Asleep && |todo| > 0 && todo[0] == x && todo[1..] == rest
    requires Dropped(Drop(s, x, rest).(reaper := Asleep), s', rest)
    ensures Dropped(s, s', todo)
  {
    assert Elements(todo) == {x} + Elements(rest);
    forall y | y in todo ensures y < |s.recs| && s.recs[y].eng in s'.closed {
      assert y == x || y in rest;
    }
  }

  /**
    A pass over a dead engine that nobody disturbs drops the whole registry: every engine session
    is closed, and neither a tombstone nor any public counter tells.
  */
  lemma UndisturbedDrop(s: State)
    requires Inv(s) && s.reaper == Asleep
    ensures var es := [EPassStarts(false)] + Times(ESweepDone, |s.live|);
      && Legal(s, es)
      && var s' := Exec(s, es);
      && s'.live == {} && s'.tombstones == s.tombstones && s'.totals == s.totals && s'.reaper == Asleep
      && s'.ledger.dropped == s.ledger.dropped + |s.live|
      && forall x :: x in s.live ==> s.recs[x].eng in s'.closed
  {
    SnapshotIsLive(s);
    var todo := Snapshot(s);
    SweepDropsAll(s, todo);
    LegalCons(s, EPassStarts(false), Times(ESweepDone, |s.live|));
    forall x | x in s.live ensures x in todo {
      assert x in Elements(todo);
    }
  }
}
