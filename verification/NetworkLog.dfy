/**
  The bounded network log of a browser session, with statuses that arrive late.

  `Log` says on plain values what the log is; `NetworkBuffer` is the deque of mutable
  entries that the page listeners update in place.
*/
module NetworkLog {
  import opened Common
  import opened Text

  datatype Entry = Entry(verb: string, url: string, resourceType: string, status: Option<int>)

  datatype Op =
    | Request(verb: string, url: string, resourceType: string)
    | Response(url: string, status: int)
    | Clear

  predicate IsPending(e: Entry, url: string) {
    e.url == url && e.status == None
  }

  /** A response fills the newest entry with its URL that has no status yet, if there is one. */
  function Attribute(log: seq<Entry>, url: string, status: int): (r: seq<Entry>)
    ensures |r| == |log|
  {
    if |log| == 0 then []
    else
      var init, last := log[..|log| - 1], log[|log| - 1];
      if IsPending(last, url) then init + [last.(status := Some(status))]
      else Attribute(init, url, status) + [last]
  }

  /** The log as it would be if it could grow without bound. */
  function Unbounded(log: seq<Entry>, op: Op): seq<Entry> {
    match op
    case Request(verb, url, resourceType) => log + [Entry(verb, url, resourceType, None)]
    case Response(url, status) => Attribute(log, url, status)
    case Clear => []
  }

  /** The log kept in a deque of at most n entries. */
  function Bounded(log: seq<Entry>, op: Op, n: nat): seq<Entry> {
    match op
    case Request(verb, url, resourceType) => Suffix(log + [Entry(verb, url, resourceType, None)], n)
    case Response(url, status) => Attribute(log, url, status)
    case Clear => []
  }

  function RunUnbounded(ops: seq<Op>): seq<Entry> {
    if |ops| == 0 then [] else Unbounded(RunUnbounded(ops[..|ops| - 1]), ops[|ops| - 1])
  }

  function RunBounded(ops: seq<Op>, n: nat): seq<Entry> {
    if |ops| == 0 then [] else Bounded(RunBounded(ops[..|ops| - 1], n), ops[|ops| - 1], n)
  }

  // ---- the bounded log is the tail of the unbounded one -------------------------------

  lemma {:induction false} AttributeOnSuffix(log: seq<Entry>, url: string, status: int, n: nat)
    ensures Attribute(Suffix(log, n), url, status) == Suffix(Attribute(log, url, status), n)
  {
    if n > 0 && |log| > 0 {
      var init, last := log[..|log| - 1], log[|log| - 1];
      assert log == init + [last];
      SuffixOfLonger(init, last, n);
      var tail := Suffix(log, n);
      assert tail[..|tail| - 1] == Suffix(init, n - 1) && tail[|tail| - 1] == last;
      if IsPending(last, url) {
        SuffixOfLonger(init, last.(status := Some(status)), n);
      } else {
        AttributeOnSuffix(init, url, status, n - 1);
        SuffixOfLonger(Attribute(init, url, status), last, n);
      }
    }
  }

  lemma SuffixOfLonger<T>(init: seq<T>, last: T, n: nat)
    requires n > 0
    ensures Suffix(init + [last], n) == Suffix(init, n - 1) + [last]
  {
  }

  /**
    A response is matched against the entries that survive only, and an entry that was dropped
    is gone for good; all the same the log is always the end of the one that drops nothing.
  */
  lemma {:induction false} BoundedIsSuffix(ops: seq<Op>, n: nat)
    ensures RunBounded(ops, n) == Suffix(RunUnbounded(ops), n)
  {
    if |ops| > 0 {
      var before, op := ops[..|ops| - 1], ops[|ops| - 1];
      BoundedIsSuffix(before, n);
      match op
      case Request(_, _, _) =>
      case Response(url, status) => AttributeOnSuffix(RunUnbounded(before), url, status, n);
      case Clear =>
    }
  }

  // ---- what a response changes -----------------------------------------------------------

  /** Same entries in the same order; a status, once there, stays. */
  ghost predicate OnlyFills(a: seq<Entry>, b: seq<Entry>) {
    |a| <= |b| && forall i :: 0 <= i < |a| ==>
      b[i] == a[i] || (a[i].status == None && b[i].status.Some? && b[i] == a[i].(status := b[i].status))
  }

  /** The entry a response fills. */
  ghost predicate IsTarget(log: seq<Entry>, url: string, k: int) {
    0 <= k < |log| && IsPending(log[k], url) && forall j :: k < j < |log| ==> !IsPending(log[j], url)
  }

  lemma {:induction false} AttributeFillsNewest(log: seq<Entry>, url: string, status: int)
    ensures var r := Attribute(log, url, status);
      && ((forall j :: 0 <= j < |log| ==> !IsPending(log[j], url)) ==> r == log)
      && (forall k :: IsTarget(log, url, k) ==> r == log[k := log[k].(status := Some(status))])
  {
    if |log| > 0 {
      var init, last := log[..|log| - 1], log[|log| - 1];
      if !IsPending(last, url) {
        AttributeFillsNewest(init, url, status);
        forall k | IsTarget(log, url, k)
          ensures Attribute(log, url, status) == log[k := log[k].(status := Some(status))]
        {
          assert IsTarget(init, url, k);
        }
      }
    }
  }

  lemma {:induction false} AttributeOnlyFills(log: seq<Entry>, url: string, status: int)
    ensures OnlyFills(log, Attribute(log, url, status))
  {
    if |log| > 0 && !IsPending(log[|log| - 1], url) {
      AttributeOnlyFills(log[..|log| - 1], url, status);
    }
  }

  lemma StepOnlyFills(log: seq<Entry>, op: Op)
    requires op != Clear
    ensures OnlyFills(log, Unbounded(log, op))
  {
    if op.Response? {
      AttributeOnlyFills(log, op.url, op.status);
    }
  }

  lemma OnlyFillsTwice(a: seq<Entry>, b: seq<Entry>, c: seq<Entry>)
    requires OnlyFills(a, b) && OnlyFills(b, c)
    ensures OnlyFills(a, c)
  {
  }

  /** Until the log is cleared, nothing moves, nothing is overwritten, nothing is lost. */
  lemma {:induction false} LogOnlyFills(before: seq<Op>, after: seq<Op>)
    requires forall op :: op in after ==> op != Clear
    ensures OnlyFills(RunUnbounded(before), RunUnbounded(before + after))
  {
    if |after| == 0 {
      assert before + after == before;
    } else {
      var shorter := after[..|after| - 1];
      assert after[|after| - 1] in after && forall op :: op in shorter ==> op in after;
      LogOnlyFills(before, shorter);
      var ops := before + after;
      assert ops[..|ops| - 1] == before + shorter && ops[|ops| - 1] == after[|after| - 1];
      StepOnlyFills(RunUnbounded(before + shorter), after[|after| - 1]);
      OnlyFillsTwice(RunUnbounded(before), RunUnbounded(before + shorter), RunUnbounded(ops));
    }
  }

  // ---- counting -----------------------------------------------------------------------

  function CountPending(log: seq<Entry>, url: string): nat {
    if |log| == 0 then 0
    else CountPending(log[..|log| - 1], url) + if IsPending(log[|log| - 1], url) then 1 else 0
  }

  function CountFilled(log: seq<Entry>, url: string): nat {
    if |log| == 0 then 0
    else CountFilled(log[..|log| - 1], url) + if log[|log| - 1].url == url && log[|log| - 1].status.Some? then 1 else 0
  }

  function Requests(ops: seq<Op>, url: string): nat {
    if |ops| == 0 then 0
    else Requests(ops[..|ops| - 1], url) + if ops[|ops| - 1].Request? && ops[|ops| - 1].url == url then 1 else 0
  }

  function Responses(ops: seq<Op>, url: string): nat {
    if |ops| == 0 then 0
    else Responses(ops[..|ops| - 1], url) + if ops[|ops| - 1].Response? && ops[|ops| - 1].url == url then 1 else 0
  }

  /** Responses to a URL that found no pending request for it. */
  function Strays(ops: seq<Op>, url: string): nat {
    if |ops| == 0 then 0
    else
      var before, op := ops[..|ops| - 1], ops[|ops| - 1];
      Strays(before, url) +
        if op.Response? && op.url == url && CountPending(RunUnbounded(before), url) == 0 then 1 else 0
  }

  lemma {:induction false} AttributeCounts(log: seq<Entry>, url: string, status: int, u: string)
    ensures var r := Attribute(log, url, status);
      var moved := if u == url && CountPending(log, u) > 0 then 1 else 0;
      CountPending(r, u) == CountPending(log, u) - moved && CountFilled(r, u) == CountFilled(log, u) + moved
  {
    if |log| > 0 {
      var init, last := log[..|log| - 1], log[|log| - 1];
      var r := Attribute(log, url, status);
      if IsPending(last, url) {
        assert r[..|r| - 1] == init;
      } else {
        AttributeCounts(init, url, status, u);
        assert r[..|r| - 1] == Attribute(init, url, status);
      }
    }
  }

  /**
    With no clear: every request is pending or filled, and every response filled one entry or
    was a stray.  So pending = requests - responses exactly when no response was a stray.
  */
  lemma {:induction false} LogBalances(ops: seq<Op>, url: string)
    requires forall op :: op in ops ==> op != Clear
    ensures var log := RunUnbounded(ops);
      && CountPending(log, url) + CountFilled(log, url) == Requests(ops, url)
      && CountFilled(log, url) + Strays(ops, url) == Responses(ops, url)
      && (CountPending(log, url) == Requests(ops, url) - Responses(ops, url) <==> Strays(ops, url) == 0)
  {
    if |ops| > 0 {
      var before, op := ops[..|ops| - 1], ops[|ops| - 1];
      assert op in ops && forall o :: o in before ==> o in ops;
      LogBalances(before, url);
      var log := RunUnbounded(before);
      match op
      case Request(_, _, _) => assert RunUnbounded(ops)[..|log|] == log;
      case Response(u, status) => AttributeCounts(log, u, status, url);
    }
  }

  lemma {:induction false} CountFilledSuffix(log: seq<Entry>, url: string, n: nat)
    ensures CountFilled(Suffix(log, n), url) <= CountFilled(log, url)
  {
    if 0 < n < |log| {
      var tail := Suffix(log, n);
      assert tail[..|tail| - 1] == Suffix(log[..|log| - 1], n - 1) && tail[|tail| - 1] == log[|log| - 1];
      CountFilledSuffix(log[..|log| - 1], url, n - 1);
    }
  }

  lemma {:induction false} FilledAtMostResponses(ops: seq<Op>, url: string)
    ensures CountFilled(RunUnbounded(ops), url) <= Responses(ops, url)
  {
    if |ops| > 0 {
      var before, op := ops[..|ops| - 1], ops[|ops| - 1];
      FilledAtMostResponses(before, url);
      var log := RunUnbounded(before);
      match op
      case Request(_, _, _) => assert RunUnbounded(ops)[..|log|] == log;
      case Response(u, status) => AttributeCounts(log, u, status, url);
      case Clear =>
    }
  }

  /** Whatever overflowed or was cleared, a bounded log never shows more filled entries than responses. */
  lemma FilledNeverOutnumberResponses(ops: seq<Op>, url: string, n: nat)
    ensures CountFilled(RunBounded(ops, n), url) <= Responses(ops, url)
  {
    BoundedIsSuffix(ops, n);
    CountFilledSuffix(RunUnbounded(ops), url, n);
    FilledAtMostResponses(ops, url);
  }

  // ---- reading through a filter ----------------------------------------------------------

  datatype Filter = Filter(pattern: string, resourceType: string, low: Option<int>, high: Option<int>)

  /** Empty patterns and absent bounds do not filter; a status bound drops pending entries. */
  predicate Matches(e: Entry, f: Filter) {
    && (f.pattern == "" || Contains(e.url, f.pattern))
    && (f.resourceType == "" || e.resourceType == f.resourceType)
    && (f.low.Some? ==> e.status.Some? && e.status.value >= f.low.value)
    && (f.high.Some? ==> e.status.Some? && e.status.value <= f.high.value)
  }

  /** A filter selects by each of its criteria on its own; one that is not given selects everything. */
  lemma MatchesIff(e: Entry, f: Filter)
    ensures Matches(e, f) <==>
      && Matches(e, Filter(f.pattern, "", None, None)) && Matches(e, Filter("", f.resourceType, None, None))
      && Matches(e, Filter("", "", f.low, None)) && Matches(e, Filter("", "", None, f.high))
    ensures Matches(e, Filter("", "", None, None))
  {
  }

  /** What each criterion selects. */
  lemma CriteriaSelect(e: Entry, text: string, n: int)
    ensures text != "" ==>
      (Matches(e, Filter(text, "", None, None)) <==> exists before, after :: e.url == before + text + after)
    ensures text != "" ==> (Matches(e, Filter("", text, None, None)) <==> e.resourceType == text)
    ensures Matches(e, Filter("", "", Some(n), None)) <==> exists status :: e.status == Some(status) && status >= n
    ensures Matches(e, Filter("", "", None, Some(n))) <==> exists status :: e.status == Some(status) && status <= n
  {
    ContainsIff(e.url, text);
  }

  // ---- the deque -------------------------------------------------------------------------

  class NetworkLogEntry {
    const verb: string
    const url: string
    const resourceType: string
    var status: Option<int>

    constructor (verb: string, url: string, resourceType: string)
      ensures Value() == Entry(verb, url, resourceType, None)
    {
      this.verb, this.url, this.resourceType, this.status := verb, url, resourceType, None;
    }

    function Value(): Entry
      reads this
    {
      Entry(verb, url, resourceType, status)
    }
  }

  ghost function Values(es: seq<NetworkLogEntry>): (r: seq<Entry>)
    reads es
    ensures |r| == |es| && forall i :: 0 <= i < |r| ==> r[i] == es[i].Value()
  {
    seq(|es|, i requires 0 <= i < |es| reads es => es[i].Value())
  }

  ghost predicate Distinct(es: seq<NetworkLogEntry>) {
    forall i, j :: 0 <= i < j < |es| ==> es[i] != es[j]
  }

  lemma DistinctSuffix(es: seq<NetworkLogEntry>, e: NetworkLogEntry, n: nat)
    requires Distinct(es) && e !in es
    ensures Distinct(Suffix(es + [e], n))
  {
  }

  lemma ValuesOfSuffix(es: seq<NetworkLogEntry>, n: nat)
    ensures Values(Suffix(es, n)) == Suffix(Values(es), n)
  {
  }

  class NetworkBuffer {
    const maxEntries: nat
    var network: seq<NetworkLogEntry>

    ghost predicate Valid()
      reads this
    {
      |network| <= maxEntries && Distinct(network)
    }

    constructor (maxEntries: nat)
      ensures Valid() && network == [] && this.maxEntries == maxEntries
    {
      this.maxEntries, network := maxEntries, [];
    }

    /** The page's request listener. */
    method OnRequest(verb: string, url: string, resourceType: string)
      requires Valid()
      modifies this
      ensures Valid()
      ensures Values(network) == Bounded(old(Values(network)), Request(verb, url, resourceType), maxEntries)
      ensures forall e :: e in network && e !in old(network) ==> fresh(e)
    {
      var e := new NetworkLogEntry(verb, url, resourceType);
      var all := network + [e];
      assert Values(all) == old(Values(network)) + [Entry(verb, url, resourceType, None)];
      ValuesOfSuffix(all, maxEntries);
      DistinctSuffix(network, e, maxEntries);
      network := Suffix(all, maxEntries);
    }

    /** The page's response listener: the newest pending entry with this URL, if it is still there. */
    method OnResponse(url: string, status: int)
      requires Valid()
      modifies network
      ensures Valid() && network == old(network)
      ensures Values(network) == Bounded(old(Values(network)), Response(url, status), maxEntries)
    {
      ghost var log := Values(network);
      AttributeFillsNewest(log, url, status);
      var k := |network|;
      while k > 0
        invariant 0 <= k <= |network| && Values(network) == log
        invariant forall j :: k <= j < |network| ==> !IsPending(log[j], url)
      {
        k := k - 1;
        if network[k].url == url && network[k].status.None? {
          assert IsTarget(log, url, k);
          network[k].status := Some(status);
          assert Values(network) == log[k := log[k].(status := Some(status))];
          return;
        }
      }
    }

    /** The entries themselves are handed out; with `clear` the deque forgets them. */
    method NetworkLog(clear: bool) returns (entries: seq<NetworkLogEntry>)
      requires Valid()
      modifies this
      ensures Valid() && entries == old(network)
      ensures network == if clear then [] else old(network)
    {
      entries := network;
      if clear {
        network := [];
      }
    }

    /** Exactly the matching entries, in log order. */
    method NetworkFilter(pattern: string, resourceType: string, low: Option<int>, high: Option<int>, clear: bool)
      returns (result: seq<NetworkLogEntry>)
      requires Valid()
      modifies this
      ensures Valid() && network == if clear then [] else old(network)
      ensures var f := Filter(pattern, resourceType, low, high);
        && result == Selected(old(network), f)
        && forall e :: e in result <==> e in old(network) && Matches(e.Value(), f)
    {
      ghost var f := Filter(pattern, resourceType, low, high);
      result := [];
      var i := 0;
      while i < |network|
        invariant 0 <= i <= |network| && network == old(network)
        invariant result == Selected(network[..i], f)
      {
        var e := network[i].Value();
        assert network[..i + 1][..i] == network[..i];
        i := i + 1;
        if pattern != "" && !Contains(e.url, pattern) {
          continue;
        }
        if resourceType != "" && e.resourceType != resourceType {
          continue;
        }
        if low.Some? && (e.status.None? || e.status.value < low.value) {
          continue;
        }
        if high.Some? && (e.status.None? || e.status.value > high.value) {
          continue;
        }
        result := result + [network[i - 1]];
      }
      assert network[..i] == network;
      if clear {
        network := [];
      }
    }
  }

  /** The entries that match, in order. */
  ghost function Selected(es: seq<NetworkLogEntry>, f: Filter): (r: seq<NetworkLogEntry>)
    reads es
    ensures forall i :: 0 <= i < |r| ==> r[i] in es && Matches(r[i].Value(), f)
    ensures forall i :: 0 <= i < |es| && Matches(es[i].Value(), f) ==> es[i] in r
  {
    if |es| == 0 then []
    else
      var init, last := es[..|es| - 1], es[|es| - 1];
      Selected(init, f) + if Matches(last.Value(), f) then [last] else []
  }

  /** Filtering keeps the order: what is selected from the front comes before what is selected from the rest. */
  lemma {:induction false} SelectedInOrder(a: seq<NetworkLogEntry>, b: seq<NetworkLogEntry>, f: Filter)
    ensures Selected(a + b, f) == Selected(a, f) + Selected(b, f)
  {
    if |b| == 0 {
      assert a + b == a;
    } else {
      var init := b[..|b| - 1];
      assert (a + b)[..|a + b| - 1] == a + init;
      SelectedInOrder(a, init, f);
    }
  }
}
