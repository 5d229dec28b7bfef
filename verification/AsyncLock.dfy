/**
  The lock of one session: asyncio.Lock as shipped with the pinned Python 3.11.

  A waiter that has been woken stays in the queue until its own task runs again, and
  `release` clears the locked flag before that happens; a waiter whose wait timed out
  stays in the queue, cancelled, until its task runs again.  Both windows are visible
  to every other task, so both are part of the value modelled here.
*/
module AsyncLock {

  /**
    Who can hold or await a session lock: a request task, or the one idle reaper.  `timed`
    is true for a wait wrapped in `wait_for`, false for a plain `await`.
  */
  datatype Who = Request(task: nat, timed: bool) | Reaper {
    predicate HasDeadline() {
      Request? && timed
    }
  }

  datatype WaitStatus = Pending | Woken | Cancelled

  datatype Waiter = Waiter(who: Who, status: WaitStatus)

  /**
    `Free` is the cleared locked flag.  The Python lock does not remember its owner; the
    owner is kept here so that ownership can be stated.  `Retired` is the state a finished
    reap leaves behind: the flag is set and nobody will ever clear it.
  */
  datatype Holder = Free | By(who: Who) | Retired

  datatype Lock = Lock(holder: Holder, waiters: seq<Waiter>)

  const UNLOCKED := Lock(Free, [])

  predicate Locked(l: Lock) {
    l.holder != Free
  }

  predicate CanTake(l: Lock) {
    !Locked(l) && forall i :: 0 <= i < |l.waiters| ==> l.waiters[i].status == Cancelled
  }

  /** `acquire`: the fast path when nobody is ahead, else a place at the end of the queue. */
  function Acquire(l: Lock, who: Who): Lock {
    if CanTake(l) then l.(holder := By(who))
    else l.(waiters := l.waiters + [Waiter(who, Pending)])
  }

  /** `_wake_up_first`: wakes the head, unless its future is already done. */
  function WakeFirst(l: Lock): Lock {
    if |l.waiters| > 0 && l.waiters[0].status == Pending
    then l.(waiters := l.waiters[0 := l.waiters[0].(status := Woken)])
    else l
  }

  function Release(l: Lock): Lock {
    WakeFirst(l.(holder := Free))
  }

  function Queue(l: Lock): set<Who> {
    set w | w in l.waiters :: w.who
  }

  function IndexIn(ws: seq<Waiter>, who: Who): (k: nat)
    ensures k <= |ws|
    ensures k < |ws| ==> ws[k].who == who
    ensures forall i :: 0 <= i < k ==> ws[i].who != who
  {
    if |ws| == 0 || ws[0].who == who then 0 else 1 + IndexIn(ws[1..], who)
  }

  /** Where `who` stands in the queue. */
  function Place(l: Lock, who: Who): (k: nat)
    requires who in Queue(l)
    ensures k < |l.waiters| && l.waiters[k].who == who
  {
    IndexIn(l.waiters, who)
  }

  predicate IsWaiting(l: Lock, who: Who, status: WaitStatus) {
    who in Queue(l) && l.waiters[Place(l, who)].status == status
  }

  function Remove(l: Lock, who: Who): Lock
    requires who in Queue(l)
  {
    var k := Place(l, who);
    l.(waiters := l.waiters[..k] + l.waiters[k + 1..])
  }

  /** The task of a woken waiter runs: it leaves the queue and sets the locked flag. */
  function Resume(l: Lock, who: Who): Lock
    requires who in Queue(l)
  {
    Remove(l, who).(holder := By(who))
  }

  /** A timed wait ran out while its future was still pending. */
  function Cancel(l: Lock, who: Who): Lock
    requires who in Queue(l)
  {
    var k := Place(l, who);
    l.(waiters := l.waiters[k := l.waiters[k].(status := Cancelled)])
  }

  /** The task of a cancelled waiter runs: it leaves, and passes the wake-up on if the lock is free. */
  function Abandon(l: Lock, who: Who): Lock
    requires who in Queue(l)
  {
    var rest := Remove(l, who);
    if Locked(rest) then rest else WakeFirst(rest)
  }

  // ---- what every operation keeps ------------------------------------------------

  /**
    No task queues twice; only the head is ever woken, and only while the lock is free; and
    no wake-up is lost: a free lock with a queue has a head whose task is about to run.
  */
  ghost predicate WellFormed(l: Lock) {
    && (forall i, j :: 0 <= i < j < |l.waiters| ==> l.waiters[i].who != l.waiters[j].who)
    && (forall i :: 0 <= i < |l.waiters| && l.waiters[i].status == Woken ==> i == 0 && !Locked(l))
    && (!Locked(l) && |l.waiters| > 0 ==> l.waiters[0].status != Pending)
  }

  /**
    Nobody waits without a deadline behind the reaper, which never releases: every waiter
    queued after it, and every waiter once it holds the lock or has retired it, is timed.
    Only timed waits are ever cancelled.
  */
  ghost predicate UntimedAhead(l: Lock) {
    && (forall i, j :: 0 <= i < j < |l.waiters| && l.waiters[i].who == Reaper ==> l.waiters[j].who.HasDeadline())
    && (l.holder == By(Reaper) || l.holder == Retired ==>
          forall j :: 0 <= j < |l.waiters| ==> l.waiters[j].who.HasDeadline())
    && (forall i :: 0 <= i < |l.waiters| && l.waiters[i].status == Cancelled ==> l.waiters[i].who.HasDeadline())
  }

  ghost predicate Good(l: Lock) {
    WellFormed(l) && UntimedAhead(l)
  }

  lemma AcquireKeeps(l: Lock, who: Who)
    requires Good(l) && who !in Queue(l)
    requires who.HasDeadline() || (Reaper !in Queue(l) && l.holder != By(Reaper) && l.holder != Retired)
    ensures Good(Acquire(l, who))
    ensures Queue(Acquire(l, who)) == if CanTake(l) then Queue(l) else Queue(l) + {who}
  {
  }

  /** Everything `WellFormed` asks for except that a free lock's head is about to run. */
  ghost predicate AlmostWellFormed(l: Lock) {
    && (forall i, j :: 0 <= i < j < |l.waiters| ==> l.waiters[i].who != l.waiters[j].who)
    && (forall i :: 0 <= i < |l.waiters| && l.waiters[i].status == Woken ==> i == 0 && !Locked(l))
  }

  lemma RemoveKeepsAlmost(l: Lock, who: Who)
    requires Good(l) && who in Queue(l)
    ensures AlmostWellFormed(Remove(l, who)) && UntimedAhead(Remove(l, who))
  {
  }

  lemma WakeRepairs(l: Lock)
    requires AlmostWellFormed(l) && UntimedAhead(l) && !Locked(l)
    ensures Good(WakeFirst(l))
  {
  }

  lemma WakeKeepsQueue(l: Lock)
    ensures Queue(WakeFirst(l)) == Queue(l)
  {
    var l' := WakeFirst(l);
    forall w | w in Queue(l) ensures w in Queue(l') {
      assert l'.waiters[Place(l, w)].who == w;
    }
    forall w | w in Queue(l') ensures w in Queue(l) {
      assert l.waiters[Place(l', w)].who == w;
    }
  }

  lemma ReleaseKeeps(l: Lock)
    requires Good(l)
    ensures Good(Release(l)) && Queue(Release(l)) == Queue(l)
  {
    WakeKeepsQueue(l.(holder := Free));
  }

  lemma RemoveKeepsOthers(l: Lock, who: Who)
    requires WellFormed(l) && who in Queue(l)
    ensures Queue(Remove(l, who)) == Queue(l) - {who}
  {
  }

  lemma ResumeKeeps(l: Lock, who: Who)
    requires Good(l) && IsWaiting(l, who, Woken)
    ensures Good(Resume(l, who)) && !Locked(l)
    ensures Queue(Resume(l, who)) == Queue(l) - {who}
  {
  }

  lemma CancelKeeps(l: Lock, who: Who)
    requires Good(l) && IsWaiting(l, who, Pending) && who.HasDeadline()
    ensures Good(Cancel(l, who)) && Queue(Cancel(l, who)) == Queue(l)
  {
    var l' := Cancel(l, who);
    forall w | w in Queue(l) ensures w in Queue(l') {
      assert l'.waiters[Place(l, w)].who == w;
    }
    forall w | w in Queue(l') ensures w in Queue(l) {
      assert l.waiters[Place(l', w)].who == w;
    }
  }

  lemma AbandonKeeps(l: Lock, who: Who)
    requires Good(l) && who in Queue(l)
    ensures Good(Abandon(l, who)) && Queue(Abandon(l, who)) == Queue(l) - {who}
  {
    var rest := Remove(l, who);
    RemoveKeepsOthers(l, who);
    RemoveKeepsAlmost(l, who);
    if !Locked(rest) {
      WakeRepairs(rest);
      WakeKeepsQueue(rest);
    }
  }

  // ---- fairness ------------------------------------------------------------------------

  lemma {:induction false} PlaceInLonger(ws: seq<Waiter>, w: Waiter, who: Who)
    requires exists i :: 0 <= i < |ws| && ws[i].who == who
    ensures IndexIn(ws + [w], who) == IndexIn(ws, who)
  {
    if ws[0].who != who {
      assert (ws + [w])[1..] == ws[1..] + [w];
      var i :| 0 <= i < |ws| && ws[i].who == who;
      assert ws[1..][i - 1].who == who;
      PlaceInLonger(ws[1..], w, who);
    }
  }

  /** First come, first served: whoever comes later overtakes nobody, and takes a lock only if nobody waits for it. */
  lemma NobodyIsOvertaken(l: Lock, who: Who, other: Who)
    requires other in Queue(l)
    ensures other in Queue(Acquire(l, who)) && Place(Acquire(l, who), other) == Place(l, other)
    ensures Acquire(l, who).waiters[..|l.waiters|] == l.waiters
    ensures Acquire(l, who).holder == By(who) && l.holder != By(who) ==> IsWaiting(l, other, Cancelled)
  {
    assert l.waiters[Place(l, other)] in l.waiters;
    if !CanTake(l) {
      var l' := Acquire(l, who);
      PlaceInLonger(l.waiters, Waiter(who, Pending), other);
      assert l'.waiters[Place(l, other)] in l'.waiters;
    }
  }

  lemma {:induction false} PlaceIsKept(ws: seq<Waiter>, k: nat, w: Waiter)
    requires k < |ws| && ws[k].who == w.who && forall i :: 0 <= i < k ==> ws[i].who != w.who
    ensures IndexIn(ws[k := w], w.who) == k
  {
    if k > 0 {
      assert ws[k := w][1..] == ws[1..][k - 1 := w];
      PlaceIsKept(ws[1..], k - 1, w);
    }
  }

  /** A wait that times out keeps its place until its task runs, and says so. */
  lemma CancelledStaysPut(l: Lock, who: Who)
    requires who in Queue(l)
    ensures IsWaiting(Cancel(l, who), who, Cancelled) && Cancel(l, who).holder == l.holder
  {
    var k := Place(l, who);
    var l' := Cancel(l, who);
    PlaceIsKept(l.waiters, k, Waiter(who, Cancelled));
    assert l'.waiters[k] in l'.waiters && l'.waiters[k].who == who;
  }
}
