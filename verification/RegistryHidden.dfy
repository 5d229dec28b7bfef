/**
  What a lookup answers for a session that is being removed or has been.  One chosen by an
  eviction is unknown for good.  A deleted or purged one can still turn into an expired one, if
  the reaper had claimed it before; exactly when is stated here.
*/
module RegistryHidden {
  import opened Common
  import opened AsyncLock
  import opened HttpErrors
  import opened Registry
  import opened RegistryInv
  import opened RegistrySteps
  import opened RegistryTheorems
  import opened RegistryPolicy
  import opened RegistryProgress
  import opened RegistryEvicted

  /** Whatever happens from here on, a lookup of this id is answered as unknown. */
  ghost predicate AlwaysUnknown(s: State, sid: Sid) {
    forall es :: Legal(s, es) ==> Get(Exec(s, es), sid) == Unknown
  }

  /** No reap of this id is remembered as a tombstone. */
  predicate Forgotten(s: State, sid: Sid) {
    forall i :: 0 <= i < |s.reapLog| && s.reapLog[i].sid == sid ==> !Remembered(s, i)
  }

  lemma {:induction false} RunStaysSpoken(s: State, es: seq<Event>, v: Sid)
    requires Inv(s) && Legal(s, es) && Spoken(s, v)
    ensures Spoken(Exec(s, es), v)
    decreases |es|
  {
    if |es| > 0 {
      StaysSpoken(s, es[0], v);
      KeepsInv(s, es[0]);
      RunStaysSpoken(Apply(s, es[0]), es[1..], v);
    }
  }

  /** Whoever is hidden and not reaped is unknown; whoever is hidden and reaped, unless remembered. */
  lemma HiddenAnswer(s: State, sid: Sid)
    requires Reachable(s) && Shape(s) && sid < |s.recs| && s.recs[sid].closing && Forgotten(s, sid)
    ensures Get(s, sid) == Unknown
  {
    if Reaped(s, sid) {
      var i :| 0 <= i < |s.reapLog| && s.reapLog[i].sid == sid;
      ReapedAnswer(s, i);
    } else {
      UnreapedAnswer(s, sid);
    }
  }

  lemma ForgottenStays(s: State, es: seq<Event>, sid: Sid)
    requires Reachable(s) && Legal(s, es) && sid < |s.recs| && s.recs[sid].closing
    requires s.cfg.tombstoneMax == 0 || (!ClaimedBy(s, Reaper, sid) && Forgotten(s, sid))
    ensures Forgotten(Exec(s, es), sid)
  {
    var s' := Exec(s, es);
    ReachableInv(s);
    RunIsLater(s, es);
    if s.cfg.tombstoneMax > 0 && !Reaped(s, sid) {
      RunStaysSpoken(s, es, sid);
    } else if s.cfg.tombstoneMax > 0 {
      var k :| 0 <= k < |s.reapLog| && s.reapLog[k].sid == sid;
      assert s'.reapLog[..|s.reapLog|][k] == s'.reapLog[k];
      RunIsReachable(s, es);
      ReachableInv(s');
      assert forall i :: 0 <= i < |s'.reapLog| && s'.reapLog[i].sid == sid ==> i == k;
    }
  }

  /** A hidden session is unknown for good exactly if the reaper has no claim on it and no tombstone of it is kept. */
  lemma AlwaysUnknownIff(s: State, sid: Sid)
    requires Reachable(s) && sid < |s.recs| && s.recs[sid].closing
    ensures AlwaysUnknown(s, sid)
      <==> s.cfg.tombstoneMax == 0 || (!ClaimedBy(s, Reaper, sid) && Forgotten(s, sid))
  {
    ReachableInv(s);
    if s.cfg.tombstoneMax == 0 || (!ClaimedBy(s, Reaper, sid) && Forgotten(s, sid)) {
      forall es | Legal(s, es) ensures Get(Exec(s, es), sid) == Unknown {
        ForgottenStays(s, es, sid);
        RunIsLater(s, es);
        RunIsReachable(s, es);
        ReachableInv(Exec(s, es));
        HiddenAnswer(Exec(s, es), sid);
      }
    } else if ClaimedBy(s, Reaper, sid) {
      var es := ClaimLeadsToExpiry(s, sid);
    } else {
      var i :| 0 <= i < |s.reapLog| && s.reapLog[i].sid == sid && Remembered(s, i);
      ReapedAnswer(s, i);
      assert Legal(s, []) && Exec(s, []) == s;
    }
  }

  /** What the reaper has claimed can still end as expired. */
  lemma ClaimLeadsToExpiry(s: State, sid: Sid) returns (es: seq<Event>)
    requires Reachable(s) && Inv(s) && ClaimedBy(s, Reaper, sid) && s.cfg.tombstoneMax > 0
    ensures Legal(s, es) && Get(Exec(s, es), sid).Expired?
  {
    es := ReapCanFinish(s, sid);
    RunIsReachable(s, es);
    ReachableInv(Exec(s, es));
    ReapedAnswer(Exec(s, es), |s.reapLog|);
  }

  /** From the moment it is chosen, the victim of an eviction is unknown, whatever becomes of the create. */
  lemma VictimAnswersUnknown(s: State, t: Task, v: Sid)
    requires Reachable(s) && IsVictim(s, t, v)
    ensures AlwaysUnknown(s, v)
  {
    ReachableEvictions(s);
    assert Spoken(s, v);
    AlwaysUnknownIff(s, v);
  }

  /** A create that has succeeded does not report itself, and what it reports is unknown for good. */
  lemma EvictedAnswersUnknown(s: State, t: Task)
    requires Reachable(s) && t < |s.tasks| && s.tasks[t].Created? && s.tasks[t].reported.Some?
    ensures s.tasks[t].reported.value < |s.recs| && s.tasks[t].reported.value != s.tasks[t].sid
    ensures AlwaysUnknown(s, s.tasks[t].reported.value)
  {
    ReachableEvictions(s);
    assert IsEvicted(s, t, s.tasks[t].reported.value);
    assert IsVictim(s, t, s.tasks[t].reported.value);
    VictimAnswersUnknown(s, t, s.tasks[t].reported.value);
  }

  lemma StepIsReachable(s: State, e: Event)
    requires Reachable(s) && Inv(s) && Enabled(s, e)
    ensures Reachable(Apply(s, e)) && Inv(Apply(s, e))
  {
    OneStep(s, e);
    RunIsReachable(s, [e]);
  }

  /**
    A delete promises that its id is unknown from then on.  That holds exactly if, as the
    delete ends, the reaper is not already waiting for the same session's lock behind it.
  */
  lemma DeletedAnswersUnknownIff(s: State, t: Task, o: Outcome)
    requires Reachable(s) && Shape(s) && Enabled(s, EBodyEnds(t, o)) && s.tasks[t].kind == Delete
    ensures var sid := s.tasks[t].sid;
      AlwaysUnknown(BodyEnds(s, t, o), sid)
      <==> s.cfg.tombstoneMax == 0 || !(s.reaper.LockWait? && s.reaper.claim.sid == sid)
  {
    var s', sid := BodyEnds(s, t, o), s.tasks[t].sid;
    ReachableInv(s);
    StepIsReachable(s, EBodyEnds(t, o));
    DeleterHasTheLock(s, t);
    DeleteLeavesClaims(s, t, o);
    assert !Reaped(s', sid);
    AlwaysUnknownIff(s', sid);
  }

  lemma DeleterHasTheLock(s: State, t: Task)
    requires Inv(s) && t < |s.tasks| && s.tasks[t].Body? && s.tasks[t].kind == Delete
    ensures s.recs[s.tasks[t].sid].closing && !Reaped(s, s.tasks[t].sid)
    ensures ClaimedBy(s, Reaper, s.tasks[t].sid) <==> s.reaper.LockWait? && s.reaper.claim.sid == s.tasks[t].sid
  {
    var sid := s.tasks[t].sid;
    assert ClosedBy(s.tasks[t]) == Some(sid);
    assert LockOk(s, sid) && PhaseOf(s, Request(t, true), sid) == Holds;
    assert PhaseOf(s, Reaper, sid) != Holds;
  }

  lemma DeleteLeavesClaims(s: State, t: Task, o: Outcome)
    requires Shape(s) && Enabled(s, EBodyEnds(t, o)) && s.tasks[t].kind == Delete
    ensures var s', sid := BodyEnds(s, t, o), s.tasks[t].sid;
      && s'.reapLog == s.reapLog && s'.cfg == s.cfg && |s'.recs| == |s.recs|
      && s'.recs[sid].closing == s.recs[sid].closing
      && (ClaimedBy(s', Reaper, sid) <==> ClaimedBy(s, Reaper, sid))
  {
  }

  /**
    A reset purges without looking at locks.  The id it has just purged is unknown from then
    on exactly if the reaper has no claim on it and keeps no tombstone of it.
  */
  lemma PurgedAnswersUnknownIff(s: State, t: Task)
    requires Reachable(s) && Shape(s) && Enabled(s, EPurgeDone(t))
    ensures var sid := s.tasks[t].sid;
      AlwaysUnknown(PurgeDone(s, t), sid)
      <==> s.cfg.tombstoneMax == 0 || (!ClaimedBy(s, Reaper, sid) && Forgotten(s, sid))
  {
    var s', sid := PurgeDone(s, t), s.tasks[t].sid;
    ReachableInv(s);
    assert ClosedBy(s.tasks[t]) == Some(sid);
    StepIsReachable(s, EPurgeDone(t));
    PurgeLeavesClaims(s, t);
    AlwaysUnknownIff(s', sid);
  }

  lemma PurgeLeavesClaims(s: State, t: Task)
    requires Shape(s) && Enabled(s, EPurgeDone(t))
    ensures var s', sid := PurgeDone(s, t), s.tasks[t].sid;
      && s'.reapLog == s.reapLog && s'.cfg == s.cfg && |s'.recs| == |s.recs|
      && (s.recs[sid].closing ==> s'.recs[sid].closing)
      && (ClaimedBy(s', Reaper, sid) <==> ClaimedBy(s, Reaper, sid))
      && (Forgotten(s', sid) <==> Forgotten(s, sid))
  {
  }
}
