/** Collecting the counts of all clusters and deciding on their sum. */
module Collection {
  import opened Int32
  import opened Sums
  import opened Budget
  import opened BudgetLaws
  import Scale

  /** What one cluster knows: its API objects, and the selected pods with their status. */
  datatype View = View(api: Scale.Api, pods: seq<Scale.OwnedPod>, statuses: seq<PodStatus>)

  datatype Counts = Counts(expected: int, healthy: int)

  /** The answer to listing the pods of a selector. */
  datatype Listing = InvalidSelector | ListFailed | Listed(pods: seq<Scale.OwnedPod>, statuses: seq<PodStatus>)

  /** These are the counts of the view; there are none when a managed pod does not resolve. */
  ghost predicate CountsOf(view: View, counts: Result<Counts>) {
    && (counts.Ok? <==> Scale.AllResolve(view.api, view.pods))
    && (counts.Ok? ==>
          && counts.value.healthy == Wrap(CountHealthy(view.statuses))
          && Scale.ExpectedScale(view.api, view.pods, counts.value.expected))
  }

  /** The service's own counts; every error on the way is passed on. */
  method GetPodCounts(api: Scale.Api, listing: Listing) returns (counts: Result<Counts>)
    ensures !listing.Listed? ==> counts.Err?
    ensures listing.Listed? && Scale.Coherent(api, listing.pods) ==>
              CountsOf(View(api, listing.pods, listing.statuses), counts)
    ensures counts.Ok? ==> counts.value.healthy == Wrap(CountHealthy(listing.statuses))
    ensures listing.Listed? ==> (counts.Ok? <==> Scale.Memo(api, listing.pods).Ok?)
    ensures counts.Ok? ==> counts.value.expected == Wrap(SumMap(Scale.Memo(api, listing.pods).value))
  {
    if !listing.Listed? {
      return Err;
    }
    var expected, _ := Scale.FindExpectedScale(api, listing.pods);
    if expected.Err? {
      return Err;
    }
    var healthy := CountHealthyPods(listing.statuses);
    return Ok(Counts(expected.value, healthy));
  }

  function Expecteds(reports: seq<Counts>): seq<int> {
    seq(|reports|, i requires 0 <= i < |reports| => reports[i].expected)
  }

  function Healthies(reports: seq<Counts>): seq<int> {
    seq(|reports|, i requires 0 <= i < |reports| => reports[i].healthy)
  }

  function Total(reports: seq<Counts>): Counts {
    Counts(Wrap(Sum(Expecteds(reports))), Wrap(Sum(Healthies(reports))))
  }

  function Values(responses: seq<Result<Counts>>): seq<Counts>
    requires forall r | r in responses :: r.Ok?
  {
    seq(|responses|, i requires 0 <= i < |responses| => responses[i].value)
  }

  lemma TotalStep(reports: seq<Counts>, last: Counts)
    ensures Total(reports + [last]) ==
            Counts(Wrap(Total(reports).expected + last.expected), Wrap(Total(reports).healthy + last.healthy))
  {
    var more := reports + [last];
    assert Expecteds(more)[..|more| - 1] == Expecteds(reports);
    assert Healthies(more)[..|more| - 1] == Healthies(reports);
    WrapAbsorbs(Sum(Expecteds(reports)), last.expected);
    WrapAbsorbs(Sum(Healthies(reports)), last.healthy);
  }

  /** The responses of all remote endpoints, in the order in which they came in. */
  method GetRemotePodCounts(responses: seq<Result<Counts>>) returns (counts: Result<Counts>)
    ensures counts.Ok? <==> forall r | r in responses :: r.Ok?
    ensures counts.Ok? ==> counts.value == Total(Values(responses))
  {
    var failed := false;
    for i := 0 to |responses|
      invariant failed <==> exists r | r in responses[..i] :: r.Err?
    {
      assert responses[..i + 1] == responses[..i] + [responses[i]];
      if responses[i].Err? {
        failed := true;
      }
    }
    assert responses[..|responses|] == responses;
    if failed {
      return Err;
    }
    ghost var reports := Values(responses);
    var expected, healthy := 0, 0;
    for i := 0 to |responses|
      invariant Counts(expected, healthy) == Total(reports[..i])
    {
      assert responses[i] in responses;
      assert reports[..i + 1] == reports[..i] + [responses[i].value];
      TotalStep(reports[..i], responses[i].value);
      expected := Wrap(expected + responses[i].value.expected);
      healthy := Wrap(healthy + responses[i].value.healthy);
    }
    assert reports[..|reports|] == reports;
    return Ok(Counts(expected, healthy));
  }

  function VerdictOn(spec: Spec, candidateReady: bool, reports: seq<Counts>): Result<bool> {
    Verdict(spec, candidateReady, Expecteds(reports), Healthies(reports))
  }

  /** Remote counts first, then the local ones; any error makes the whole answer an error. */
  method CanPodBeDisrupted(spec: Spec, candidateReady: bool, remotes: seq<Result<Counts>>, local: Result<Counts>)
    returns (allowed: Result<bool>)
    ensures allowed.Ok? ==> local.Ok? && forall r | r in remotes :: r.Ok?
    ensures local.Ok? && (forall r | r in remotes :: r.Ok?) ==>
              allowed == VerdictOn(spec, candidateReady, Values(remotes) + [local.value])
    // for absolute budgets: at most n of all expected pods are then missing, or n are left
    ensures local.Ok? && (forall r | r in remotes :: r.Ok?) ==>
              AbsoluteVerdict(spec, candidateReady, Total(Values(remotes) + [local.value]), allowed)
  {
    var remote := Ok(Counts(0, 0));
    if |remotes| > 0 {
      remote := GetRemotePodCounts(remotes);
      if remote.Err? {
        return Err;
      }
    } else {
      assert Total(Values(remotes)) == Counts(0, 0);
    }
    if local.Err? {
      return Err;
    }
    TotalStep(Values(remotes), local.value);
    var totalHealthy := Wrap(remote.value.healthy + local.value.healthy);
    var totalExpected := Wrap(remote.value.expected + local.value.expected);
    allowed := DisruptionAllowed(Some(spec), candidateReady, totalExpected, totalHealthy);
    AbsoluteVerdictHolds(spec, candidateReady, Counts(totalExpected, totalHealthy));
  }

  /** What a budget with an absolute number means for totals without wrap-around. */
  predicate AbsoluteVerdict(spec: Spec, ready: bool, total: Counts, allowed: Result<bool>) {
    var left := if ready then total.healthy - 1 else total.healthy;
    && (0 <= left && 0 <= total.expected && spec.maxUnavailable.Some? && spec.maxUnavailable.value.Absolute?
        && Fits(spec.maxUnavailable.value.n) && Fits(total.expected - spec.maxUnavailable.value.n) ==>
          allowed == Ok(total.expected - left <= spec.maxUnavailable.value.n))
    && (0 <= left && 0 <= total.expected && spec.maxUnavailable.None?
        && spec.minAvailable.Some? && spec.minAvailable.value.Absolute?
        && Fits(spec.minAvailable.value.n) && Fits(total.expected - spec.minAvailable.value.n) ==>
          allowed == Ok(spec.minAvailable.value.n <= left))
  }

  lemma AbsoluteVerdictHolds(spec: Spec, ready: bool, total: Counts)
    requires Fits(total.expected) && Fits(total.healthy)
    ensures AbsoluteVerdict(spec, ready, total,
                            DisruptionAllowed(Some(spec), ready, total.expected, total.healthy))
  {
    var left := if ready then total.healthy - 1 else total.healthy;
    if 0 <= left && 0 <= total.expected {
      if spec.maxUnavailable.Some? && spec.maxUnavailable.value.Absolute?
         && Fits(spec.maxUnavailable.value.n) && Fits(total.expected - spec.maxUnavailable.value.n) {
        AbsoluteBudgets(spec.maxUnavailable.value.n, spec.minAvailable, ready, total.expected, total.healthy);
      }
      if spec.maxUnavailable.None? && spec.minAvailable.Some? && spec.minAvailable.value.Absolute?
         && Fits(spec.minAvailable.value.n) && Fits(total.expected - spec.minAvailable.value.n) {
        AbsoluteBudgets(spec.minAvailable.value.n, None, ready, total.expected, total.healthy);
      }
    }
  }

  // ----- order and place do not matter

  lemma {:induction false} SumConcat(a: seq<int>, b: seq<int>)
    ensures Sum(a + b) == Sum(a) + Sum(b)
  {
    if b == [] {
      assert a + b == a;
    } else {
      SumConcat(a, b[..|b| - 1]);
      assert (a + b)[..|a + b| - 1] == a + b[..|b| - 1];
    }
  }

  /** The last element of a has its match in b; taking both out leaves equal multisets. */
  lemma TakeOut<T>(a: seq<T>, b: seq<T>) returns (i: nat)
    requires multiset(a) == multiset(b) && a != []
    ensures i < |b| && b[i] == a[|a| - 1]
    ensures multiset(a[..|a| - 1]) == multiset(b[..i] + b[i + 1..])
    ensures b == b[..i] + [b[i]] + b[i + 1..] && a == a[..|a| - 1] + [b[i]]
  {
    var last := a[|a| - 1];
    assert last in multiset(b);
    i :| 0 <= i < |b| && b[i] == last;
    assert a == a[..|a| - 1] + [last];
    assert b == b[..i] + [last] + b[i + 1..];
    assert multiset(a) == multiset(a[..|a| - 1]) + multiset{last};
    assert multiset(b) == multiset(b[..i]) + multiset{last} + multiset(b[i + 1..]);
    assert multiset(b[..i] + b[i + 1..]) == multiset(b[..i]) + multiset(b[i + 1..]);
    assert multiset(b[..i] + b[i + 1..]) == multiset(b) - multiset{last};
    assert multiset(a[..|a| - 1]) == multiset(a) - multiset{last};
  }

  lemma {:induction false} SumPermuted(a: seq<int>, b: seq<int>)
    requires multiset(a) == multiset(b)
    ensures Sum(a) == Sum(b)
    decreases |a|
  {
    if a == [] {
      assert |multiset(a)| == |b|;
    } else {
      var last, front := a[|a| - 1], a[..|a| - 1];
      var i := TakeOut(a, b);
      SumPermuted(front, b[..i] + b[i + 1..]);
      SumConcat(b[..i], b[i + 1..]);
      SumConcat(b[..i] + [last], b[i + 1..]);
      assert (b[..i] + [last])[..i] == b[..i];
    }
  }

  lemma {:induction false} ExpectedsPermuted(a: seq<Counts>, b: seq<Counts>)
    requires multiset(a) == multiset(b)
    ensures multiset(Expecteds(a)) == multiset(Expecteds(b)) && multiset(Healthies(a)) == multiset(Healthies(b))
    decreases |a|
  {
    if a == [] {
      assert |multiset(a)| == |b|;
    } else {
      var last, front := a[|a| - 1], a[..|a| - 1];
      var i := TakeOut(a, b);
      var rest := b[..i] + b[i + 1..];
      ExpectedsPermuted(front, rest);
      assert Expecteds(a) == Expecteds(front) + [last.expected];
      assert Healthies(a) == Healthies(front) + [last.healthy];
      assert Expecteds(b) == Expecteds(b[..i]) + [last.expected] + Expecteds(b[i + 1..]);
      assert Healthies(b) == Healthies(b[..i]) + [last.healthy] + Healthies(b[i + 1..]);
      assert Expecteds(rest) == Expecteds(b[..i]) + Expecteds(b[i + 1..]);
      assert Healthies(rest) == Healthies(b[..i]) + Healthies(b[i + 1..]);
    }
  }

  /** The verdict is the same in whatever order the responses come in, and whichever of the
      clusters evaluates. */
  lemma {:induction false} VerdictIgnoresOrder(spec: Spec, candidateReady: bool, reports: seq<Counts>, reports': seq<Counts>)
    requires multiset(reports) == multiset(reports')
    ensures VerdictOn(spec, candidateReady, reports) == VerdictOn(spec, candidateReady, reports')
  {
    ExpectedsPermuted(reports, reports');
    SumPermuted(Expecteds(reports), Expecteds(reports'));
    SumPermuted(Healthies(reports), Healthies(reports'));
  }

  // ----- the budgets of a pod

  /** One XPDB of the pod's namespace: whether its selector is valid, and whether it then
      matches the labels of the pod. */
  datatype Candidate = Candidate(budget: nat, valid: bool, matches: bool)

  function Matching(items: seq<Candidate>): seq<Candidate> {
    if items == [] then []
    else Matching(items[..|items| - 1]) + (if items[|items| - 1].matches then [items[|items| - 1]] else [])
  }

  /** All matching XPDBs in list order; a failed list or one invalid selector in the namespace
      spoils it. */
  method GetXPdbsForPod(listed: Result<seq<Candidate>>) returns (xpdbs: Result<seq<Candidate>>)
    ensures xpdbs.Ok? <==> listed.Ok? && forall x | x in listed.value :: x.valid
    ensures xpdbs.Ok? ==> xpdbs.value == Matching(listed.value)
  {
    if listed.Err? {
      return Err;
    }
    var items, found := listed.value, [];
    for i := 0 to |items|
      invariant found == Matching(items[..i]) && forall x | x in items[..i] :: x.valid
    {
      assert items[..i + 1] == items[..i] + [items[i]];
      if !items[i].valid {
        assert items[i] in items;
        return Err;
      }
      assert items[..i + 1][..i] == items[..i];
      if !items[i].matches {
        continue;
      }
      found := found + [items[i]];
    }
    assert items[..|items|] == items;
    return Ok(found);
  }

  /** Where in the list the matching entries are. */
  function Places(items: seq<Candidate>): set<nat> {
    set i: nat | i < |items| && items[i].matches
  }

  lemma PlacesStep(items: seq<Candidate>)
    requires items != []
    ensures
      var n := |items| - 1;
      && n !in Places(items[..n])
      && Places(items) == Places(items[..n]) + (if items[n].matches then {n} else {})
  {
  }

  /** Exactly one result means exactly one entry of the list matches the pod. */
  lemma {:induction false} MatchingCounts(items: seq<Candidate>)
    ensures |Matching(items)| == |Places(items)|
  {
    if items != [] {
      MatchingCounts(items[..|items| - 1]);
      PlacesStep(items);
    }
  }

  /** List order is kept: what matches in the first part comes before what matches in the rest. */
  lemma {:induction false} MatchingInOrder(a: seq<Candidate>, b: seq<Candidate>)
    ensures Matching(a + b) == Matching(a) + Matching(b)
  {
    if b == [] {
      assert a + b == a;
    } else {
      var n := |b| - 1;
      MatchingInOrder(a, b[..n]);
      assert (a + b)[..|a + b| - 1] == a + b[..n];
    }
  }

  /** The results are the matching entries. */
  lemma {:induction false} MatchingFinds(items: seq<Candidate>, x: Candidate)
    ensures x in Matching(items) <==> x in items && x.matches
  {
    if items != [] {
      var n := |items| - 1;
      MatchingFinds(items[..n], x);
      assert items == items[..n] + [items[n]];
    }
  }
}
