/** What the budget arithmetic guarantees: rounding, capacity, and its direction of error. */
module BudgetLaws {
  import opened Int32
  import opened Budget

  function MaxUnavailable(p: int): Spec {
    Spec(Some(Percent(p)), None)
  }

  function MinAvailable(p: int): Spec {
    Spec(None, Some(Percent(p)))
  }

  predicate Percentage(p: int) {
    0 <= p <= 100
  }

  predicate Count(e: int) {
    0 <= e && Fits(e)
  }

  lemma ShareBounds(e: int, p: int)
    requires 0 <= e && Percentage(p)
    ensures 0 <= p * e <= 100 * e
    ensures (100 - p) * e == 100 * e - p * e
  {
  }

  /** maxUnavailable p% asks for the floor of the remaining share, minAvailable (100-p)% for
      its ceiling; they agree exactly when the share is a whole number of pods. */
  lemma {:induction false} RoundingDuality(e: int, p: int)
    requires Count(e) && Percentage(p)
    ensures DesiredHealthy(MaxUnavailable(p), e) == Ok((100 - p) * e / 100)
    ensures DesiredHealthy(MinAvailable(100 - p), e).Ok?
    ensures
      var loose, strict := DesiredHealthy(MaxUnavailable(p), e).value, DesiredHealthy(MinAvailable(100 - p), e).value;
      && 0 <= loose <= strict <= loose + 1 && strict <= e
      && (loose == strict <==> p * e % 100 == 0)
  {
    ShareBounds(e, p);
    var x := p * e;
    assert (100 - p) * e == 100 * e - x;
    RoundingArithmetic(e, x);
    assert Scaled(Percent(p), e) == Ok(CeilDiv(x, 100));
    assert Scaled(Percent(100 - p), e) == Ok(CeilDiv(100 * e - x, 100));
  }

  lemma RoundingArithmetic(e: int, x: int)
    requires 0 <= x <= 100 * e
    ensures 0 <= CeilDiv(x, 100) <= e
    ensures e - CeilDiv(x, 100) == (100 * e - x) / 100
    ensures (100 * e - x) / 100 <= CeilDiv(100 * e - x, 100) <= (100 * e - x) / 100 + 1
    ensures CeilDiv(100 * e - x, 100) <= e
    ensures (100 * e - x) / 100 == CeilDiv(100 * e - x, 100) <==> x % 100 == 0
  {
  }

  /** What the two percentages ask for, without any wrap-around. */
  lemma DesiredPercentages(p: int, e: int)
    requires Percentage(p) && Count(e)
    ensures DesiredHealthy(MaxUnavailable(p), e) == Ok((100 - p) * e / 100)
    ensures DesiredHealthy(MinAvailable(p), e) == Ok(CeilDiv(p * e, 100))
  {
    RoundingDuality(e, p);
    ShareBounds(e, p);
    RoundingArithmetic(e, p * e);
    assert Scaled(Percent(p), e) == Ok(CeilDiv(p * e, 100));
  }

  /** More expected pods never lower the number that has to stay healthy. */
  lemma {:induction false} DesiredIsMonotone(p: int, e: int, e': int)
    requires Percentage(p) && Count(e) && Count(e') && e <= e'
    ensures DesiredHealthy(MaxUnavailable(p), e).value <= DesiredHealthy(MaxUnavailable(p), e').value
    ensures DesiredHealthy(MinAvailable(p), e).value <= DesiredHealthy(MinAvailable(p), e').value
  {
    DesiredPercentages(p, e);
    DesiredPercentages(p, e');
    Ordered(p, e, e');
    Ordered(100 - p, e, e');
    CeilOrdered(p * e, p * e');
  }

  lemma CeilOrdered(x: int, y: int)
    requires x <= y
    ensures CeilDiv(x, 100) <= CeilDiv(y, 100) && x / 100 <= y / 100
  {
  }

  lemma Ordered(p: int, e: int, e': int)
    requires 0 <= p && e <= e'
    ensures p * e <= p * e' && p * e / 100 <= p * e' / 100
  {
  }

  /** What a verdict means: the pod may go exactly when the healthy pods that are then left are as
      many as desired.  A pod that is not ready takes none away. */
  lemma VerdictCountsTheRest(spec: Spec, ready: bool, e: int, h: int)
    requires Count(h) && DesiredHealthy(spec, e).Ok?
    ensures DisruptionAllowed(Some(spec), ready, e, h) == Ok((if ready then h - 1 else h) >= DesiredHealthy(spec, e).value)
  {
    WrapAbsorbs(h + 1, -1);
    assert Wrap(h) == h;
  }

  /** Absolute budgets, for any number of pods: under maxUnavailable n a pod may go exactly when at
      most n of the expected pods are then missing, whatever minAvailable says; under
      minAvailable n alone, exactly when n are left; without either, always; and a string that
      is no percentage is an error, unless maxUnavailable comes first. */
  lemma AbsoluteBudgets(n: int, m: Option<IntOrPercent>, ready: bool, e: int, h: int)
    requires Fits(n) && Count(e) && Fits(e - n) && Count(h) && (ready ==> 0 < h)
    ensures
      var left := if ready then h - 1 else h;
      && DisruptionAllowed(Some(Spec(Some(Absolute(n)), m)), ready, e, h) == Ok(e - left <= n)
      && DisruptionAllowed(Some(Spec(None, Some(Absolute(n)))), ready, e, h) == Ok(n <= left)
      && DisruptionAllowed(Some(Spec(None, None)), ready, e, h) == Ok(true)
      && DisruptionAllowed(Some(Spec(Some(Malformed), m)), ready, e, h) == Err
      && DisruptionAllowed(Some(Spec(None, Some(Malformed))), ready, e, h) == Err
      && DisruptionAllowed(None, ready, e, h) == Ok(true)
  {
    VerdictCountsTheRest(Spec(Some(Absolute(n)), m), ready, e, h);
    VerdictCountsTheRest(Spec(None, Some(Absolute(n))), ready, e, h);
    VerdictCountsTheRest(Spec(None, None), ready, e, h);
  }

  /** Percentages, also those above 100, stand for the least number of pods that is at least
      that share of the expected ones: of those that may be missing, or that have to be there. */
  lemma PercentagesRoundUp(p: int, m: Option<IntOrPercent>, e: int) returns (k: int)
    requires 0 <= p && Count(e) && Fits(p * e)
    ensures 100 * (k - 1) < p * e <= 100 * k
    ensures DesiredHealthy(Spec(Some(Percent(p)), m), e) == Ok(e - k)
    ensures DesiredHealthy(Spec(None, Some(Percent(p))), e) == Ok(k)
  {
    var x := p * e;
    k := CeilDiv(x, 100);
    assert 0 <= x;
    assert Scaled(Percent(p), e) == Ok(k);
  }

  /** With all e expected pods healthy, a ready pod may go under maxUnavailable p% exactly
      when p is positive, and under minAvailable p% exactly when the rest is worth a pod. */
  lemma {:induction false} FullHouse(p: int, e: int)
    requires Percentage(p) && Count(e) && 0 < e
    ensures DisruptionAllowed(Some(MaxUnavailable(p)), true, e, e) == Ok(0 < p)
    ensures DisruptionAllowed(Some(MinAvailable(p)), true, e, e) == Ok(100 <= (100 - p) * e)
  {
    DesiredPercentages(p, e);
    FullHouseArithmetic(p, e);
    VerdictCountsTheRest(MaxUnavailable(p), true, e, e);
    VerdictCountsTheRest(MinAvailable(p), true, e, e);
  }

  lemma FullHouseArithmetic(p: int, e: int)
    requires Percentage(p) && 0 < e
    ensures (100 - p) * e / 100 < e <==> 0 < p
    ensures CeilDiv(p * e, 100) < e <==> 100 <= (100 - p) * e
  {
    ShareBounds(e, p);
    if 0 < p {
      assert 0 < p * e;
    }
  }

  /** A stale snapshot, unready while the lists count the candidate as healthy, lets an
      eviction through that breaks the budget exactly when the budget is used up. */
  lemma StaleSnapshotOvershoots(spec: Spec, e: int, healthy: int)
    requires Count(healthy) && DesiredHealthy(spec, e).Ok?
    ensures (DisruptionAllowed(Some(spec), false, e, healthy) == Ok(true)
             && healthy - 1 < DesiredHealthy(spec, e).value)
            <==> healthy == DesiredHealthy(spec, e).value
    ensures DisruptionAllowed(Some(spec), true, e, healthy) == Ok(true) ==>
              healthy - 1 >= DesiredHealthy(spec, e).value
  {
    var desired := DesiredHealthy(spec, e).value;
    assert Wrap(Wrap(healthy + 1) - 1) == healthy by {
      WrapAbsorbs(healthy + 1, -1);
    }
    assert Wrap(Wrap(healthy) - 1) == healthy - 1;
    assert DisruptionAllowed(Some(spec), false, e, healthy) == Ok(healthy >= desired);
  }

  // ----- evicting from a list of pods

  datatype PodStatus = PodStatus(ready: bool, terminating: bool)

  predicate Healthy(pod: PodStatus) {
    pod.ready && !pod.terminating
  }

  function CountHealthy(pods: seq<PodStatus>): nat {
    if pods == [] then 0
    else CountHealthy(pods[..|pods| - 1]) + (if Healthy(pods[|pods| - 1]) then 1 else 0)
  }

  /** The counting loop of the service. */
  method CountHealthyPods(pods: seq<PodStatus>) returns (currentHealthy: int)
    ensures currentHealthy == Wrap(CountHealthy(pods))
    ensures Fits(|pods|) ==> currentHealthy == CountHealthy(pods)
  {
    currentHealthy := 0;
    for i := 0 to |pods|
      invariant currentHealthy == Wrap(CountHealthy(pods[..i]))
    {
      assert pods[..i + 1][..i] == pods[..i];
      WrapAbsorbs(CountHealthy(pods[..i]), 1);
      if pods[i].terminating {
        continue;
      }
      if pods[i].ready {
        currentHealthy := Wrap(currentHealthy + 1);
      }
    }
    assert pods[..|pods|] == pods;
    CountBounds(pods);
  }

  lemma {:induction false} CountBounds(pods: seq<PodStatus>)
    ensures CountHealthy(pods) <= |pods|
  {
    if pods != [] {
      CountBounds(pods[..|pods| - 1]);
    }
  }

  lemma {:induction false} CountConcat(a: seq<PodStatus>, b: seq<PodStatus>)
    ensures CountHealthy(a + b) == CountHealthy(a) + CountHealthy(b)
  {
    if b == [] {
      assert a + b == a;
    } else {
      CountConcat(a, b[..|b| - 1]);
      assert (a + b)[..|a + b| - 1] == a + b[..|b| - 1];
    }
  }

  /** The count changes by exactly what one pod contributes. */
  lemma CountUpdate(pods: seq<PodStatus>, i: nat, pod: PodStatus)
    requires i < |pods|
    ensures CountHealthy(pods[i := pod])
         == CountHealthy(pods) - (if Healthy(pods[i]) then 1 else 0) + (if Healthy(pod) then 1 else 0)
  {
    CountSplit(pods, i);
    CountSplit(pods[i := pod], i);
    assert pods[i := pod][..i] == pods[..i];
    assert pods[i := pod][i + 1..] == pods[i + 1..];
  }

  lemma CountSplit(pods: seq<PodStatus>, i: nat)
    requires i < |pods|
    ensures CountHealthy(pods)
         == CountHealthy(pods[..i]) + (if Healthy(pods[i]) then 1 else 0) + CountHealthy(pods[i + 1..])
  {
    CountConcat(pods[..i + 1], pods[i + 1..]);
    assert pods == pods[..i + 1] + pods[i + 1..];
    assert pods[..i + 1][..i] == pods[..i];
  }

  lemma {:induction false} SomeHealthy(pods: seq<PodStatus>) returns (i: nat)
    requires 0 < CountHealthy(pods)
    ensures i < |pods| && Healthy(pods[i])
  {
    if Healthy(pods[|pods| - 1]) {
      i := |pods| - 1;
    } else {
      i := SomeHealthy(pods[..|pods| - 1]);
    }
  }

  /** Pod i is there, and its disruption is allowed on the list as it stands. */
  predicate Admits(spec: Spec, e: int, pods: seq<PodStatus>, i: nat) {
    && i < |pods| && !pods[i].terminating
    && DisruptionAllowed(Some(spec), pods[i].ready, e, CountHealthy(pods)) == Ok(true)
  }

  function Evict(pods: seq<PodStatus>, i: nat): seq<PodStatus>
    requires i < |pods|
  {
    pods[i := pods[i].(terminating := true)]
  }

  /** Consecutive admitted evictions, each taking effect before the next is judged. */
  predicate EvictionRun(spec: Spec, e: int, pods: seq<PodStatus>, run: seq<nat>)
    decreases |run|
  {
    run == [] || (Admits(spec, e, pods, run[0]) && EvictionRun(spec, e, Evict(pods, run[0]), run[1..]))
  }

  function AfterRun(spec: Spec, e: int, pods: seq<PodStatus>, run: seq<nat>): seq<PodStatus>
    requires EvictionRun(spec, e, pods, run)
    decreases |run|
  {
    if run == [] then pods else AfterRun(spec, e, Evict(pods, run[0]), run[1..])
  }

  /** How many of the evicted pods were ready. */
  function ReadyEvicted(spec: Spec, e: int, pods: seq<PodStatus>, run: seq<nat>): nat
    requires EvictionRun(spec, e, pods, run)
    decreases |run|
  {
    if run == [] then 0
    else (if pods[run[0]].ready then 1 else 0) + ReadyEvicted(spec, e, Evict(pods, run[0]), run[1..])
  }

  function Max(a: int, b: int): int {
    if a < b then b else a
  }

  /** The healthy pods beyond what has to stay. */
  function Capacity(healthy: nat, desired: int): nat {
    Max(0, healthy - Max(0, desired))
  }

  lemma AdmitsExactly(spec: Spec, e: int, pods: seq<PodStatus>, i: nat)
    requires Fits(|pods|) && DesiredHealthy(spec, e).Ok? && i < |pods| && !pods[i].terminating
    ensures
      var h, desired := CountHealthy(pods), DesiredHealthy(spec, e).value;
      && (pods[i].ready ==> 0 < h && (Admits(spec, e, pods, i) <==> h - 1 >= desired))
      && (!pods[i].ready ==> (Admits(spec, e, pods, i) <==> h >= desired))
  {
    CountBounds(pods);
    CountSplit(pods, i);
  }

  lemma EvictCounts(pods: seq<PodStatus>, i: nat)
    requires i < |pods| && !pods[i].terminating
    ensures CountHealthy(Evict(pods, i)) == CountHealthy(pods) - (if pods[i].ready then 1 else 0)
  {
    CountUpdate(pods, i, pods[i].(terminating := true));
  }

  /** Every run spends exactly its ready evictions, and never more than the capacity: evicting
      unready pods is free. */
  lemma {:induction false} RunSpendsCapacity(spec: Spec, e: int, pods: seq<PodStatus>, run: seq<nat>)
    requires Fits(|pods|) && DesiredHealthy(spec, e).Ok? && EvictionRun(spec, e, pods, run)
    ensures |AfterRun(spec, e, pods, run)| == |pods|
    ensures
      var desired := DesiredHealthy(spec, e).value;
      var n := ReadyEvicted(spec, e, pods, run);
      && CountHealthy(AfterRun(spec, e, pods, run)) == CountHealthy(pods) - n
      && n <= Capacity(CountHealthy(pods), desired)
      && Capacity(CountHealthy(AfterRun(spec, e, pods, run)), desired)
         == Capacity(CountHealthy(pods), desired) - n
    decreases |run|
  {
    if run != [] {
      AdmitsExactly(spec, e, pods, run[0]);
      EvictCounts(pods, run[0]);
      RunSpendsCapacity(spec, e, Evict(pods, run[0]), run[1..]);
    }
  }

  /** A run after which no ready pod is admitted any more. */
  predicate Exhausted(spec: Spec, e: int, pods: seq<PodStatus>) {
    forall i | 0 <= i < |pods| :: Healthy(pods[i]) ==> !Admits(spec, e, pods, i)
  }

  lemma ExhaustedExactly(spec: Spec, e: int, pods: seq<PodStatus>)
    requires Fits(|pods|) && DesiredHealthy(spec, e).Ok?
    ensures Exhausted(spec, e, pods) <==> Capacity(CountHealthy(pods), DesiredHealthy(spec, e).value) == 0
  {
    forall i | 0 <= i < |pods| && Healthy(pods[i])
      ensures Admits(spec, e, pods, i) <==> CountHealthy(pods) - 1 >= DesiredHealthy(spec, e).value
      ensures 0 < CountHealthy(pods)
    {
      AdmitsExactly(spec, e, pods, i);
    }
    if 0 < CountHealthy(pods) {
      var i := SomeHealthy(pods);
      assert Healthy(pods[i]);
    }
  }

  /** Exact eviction capacity: a run is exhausted if and only if it has evicted as many ready
      pods as the healthy count exceeds the desired one (never more than there are). */
  lemma ExactCapacity(spec: Spec, e: int, pods: seq<PodStatus>, run: seq<nat>)
    requires Fits(|pods|) && DesiredHealthy(spec, e).Ok? && EvictionRun(spec, e, pods, run)
    ensures Exhausted(spec, e, AfterRun(spec, e, pods, run)) <==>
            ReadyEvicted(spec, e, pods, run) == Capacity(CountHealthy(pods), DesiredHealthy(spec, e).value)
  {
    RunSpendsCapacity(spec, e, pods, run);
    ExhaustedExactly(spec, e, AfterRun(spec, e, pods, run));
  }

  /** Some run does exhaust the capacity. */
  lemma {:induction false} CapacityIsReached(spec: Spec, e: int, pods: seq<PodStatus>) returns (run: seq<nat>)
    requires Fits(|pods|) && DesiredHealthy(spec, e).Ok?
    ensures EvictionRun(spec, e, pods, run)
    ensures ReadyEvicted(spec, e, pods, run) == Capacity(CountHealthy(pods), DesiredHealthy(spec, e).value)
    decreases CountHealthy(pods)
  {
    if Capacity(CountHealthy(pods), DesiredHealthy(spec, e).value) == 0 {
      run := [];
    } else {
      var i := SomeHealthy(pods);
      AdmitsExactly(spec, e, pods, i);
      EvictCounts(pods, i);
      var rest := CapacityIsReached(spec, e, Evict(pods, i));
      run := [i] + rest;
      assert run[1..] == rest;
    }
  }
}
