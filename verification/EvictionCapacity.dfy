/** How many ready pods can be evicted when none recovers and none comes: exactly the capacity
    of the budget, over all runs of the whole mesh. */
module EvictionCapacity {
  import opened Int32
  import opened Leases
  import opened Sums
  import opened Budget
  import BudgetLaws
  import LP = LockProtocol
  import opened Admission
  import opened Handling
  import QuietCollection

  // ----- never more

  /** The step evicts a pod that counts for the budget. */
  predicate Spends(s: State, step: Step, k: Key) {
    && step.Evict? && step.id in s.requests && s.requests[step.id].candidate in s.pods
    && Counts(s.pods[s.requests[step.id].candidate], k)
  }

  /** How many counted pods the run evicts. */
  function Spent(cfg: Config, s: State, steps: seq<Step>, k: Key): nat
    requires cfg.WellFormed() && Valid(cfg, s, steps)
    decreases |steps|
  {
    if steps == [] then 0
    else (if Spends(s, steps[0], k) then 1 else 0) + Spent(cfg, Apply(cfg, s, steps[0]), steps[1..], k)
  }

  /** No pod recovers and none comes. */
  predicate Dwindles(steps: seq<Step>) {
    forall step | step in steps :: !step.Recover? && !step.Spawn?
  }

  lemma RemoveTakesOne(pods: map<PodId, Pod>, p: PodId, k: Key)
    requires p in pods
    ensures HealthyPods(Remove(pods, p), k) == HealthyPods(pods, k) - {p}
  {
  }

  lemma LoseTakesNone(cfg: Config, s: State, step: Step, k: Key)
    requires cfg.WellFormed() && step.Lose? && Enabled(cfg, s, step) && Assumed(cfg, s, step) && k in cfg.specs
    ensures HealthyPods(Apply(cfg, s, step).pods, k) == HealthyPods(s.pods, k)
  {
  }

  lemma StepSpends(cfg: Config, s: State, step: Step, k: Key)
    requires cfg.WellFormed() && Enabled(cfg, s, step) && Assumed(cfg, s, step) && k in cfg.specs
    requires !step.Recover? && !step.Spawn?
    ensures |HealthyPods(Apply(cfg, s, step).pods, k)| ==
            |HealthyPods(s.pods, k)| - (if Spends(s, step, k) then 1 else 0)
  {
    if step.Evict? {
      RemoveTakesOne(s.pods, s.requests[step.id].candidate, k);
    } else if step.Lose? {
      LoseTakesNone(cfg, s, step, k);
    } else {
      OtherStepsKeepPods(cfg, s, step);
    }
  }

  /** Conservation: what is not healthy any more was spent. */
  lemma {:induction false} RunSpends(cfg: Config, s: State, steps: seq<Step>, k: Key)
    requires cfg.WellFormed() && Valid(cfg, s, steps) && AllAssumed(cfg, s, steps) && k in cfg.specs && Dwindles(steps)
    ensures |HealthyPods(Final(cfg, s, steps).pods, k)| == |HealthyPods(s.pods, k)| - Spent(cfg, s, steps, k)
    decreases |steps|
  {
    if steps != [] {
      assert steps[0] in steps;
      StepSpends(cfg, s, steps[0], k);
      RunSpends(cfg, Apply(cfg, s, steps[0]), steps[1..], k);
    }
  }

  /** A counted pod is only evicted when enough others stay. */
  lemma SpendingLeavesEnough(cfg: Config, s: State, step: Step, k: Key)
    requires cfg.WellFormed() && cfg.InTime() && Inv(cfg, s)
    requires Enabled(cfg, s, step) && Assumed(cfg, s, step) && Spends(s, step, k)
    ensures k in cfg.specs && Meets(cfg, k, |HealthyPods(Apply(cfg, s, step).pods, k)|)
  {
    assert RequestSound(cfg, s.lock.now, s.pods, s.lock.requests[step.id], s.requests[step.id]);
    AdmittedHasRoom(cfg, s, step.id);
    StepKeepsRoom(cfg, s, step, k);
    var s' := Apply(cfg, s, step);
    MoreIsEnough(cfg, k, Staying(s', k), HealthyPods(s'.pods, k));
  }

  lemma {:induction false} RunLeavesEnough(cfg: Config, s: State, steps: seq<Step>, k: Key)
    requires cfg.WellFormed() && cfg.InTime() && Inv(cfg, s) && k in cfg.specs
    requires Valid(cfg, s, steps) && AllAssumed(cfg, s, steps) && Dwindles(steps)
    ensures 0 < Spent(cfg, s, steps, k) ==> Meets(cfg, k, |HealthyPods(Final(cfg, s, steps).pods, k)|)
    decreases |steps|
  {
    if steps != [] {
      assert steps[0] in steps;
      var s' := Apply(cfg, s, steps[0]);
      StepKeepsInv(cfg, s, steps[0]);
      RunLeavesEnough(cfg, s', steps[1..], k);
      if Spends(s, steps[0], k) {
        SpendingLeavesEnough(cfg, s, steps[0], k);
        RunSpends(cfg, s', steps[1..], k);
      }
    }
  }

  /** What the budget asks for on the whole mesh. */
  ghost function Desired(cfg: Config, k: Key): Result<int>
    requires cfg.WellFormed() && k in cfg.specs
  {
    DesiredHealthy(cfg.specs[k], Wrap(SumMap(cfg.scale[k])))
  }

  ghost function CapacityOf(cfg: Config, s: State, k: Key): nat
    requires cfg.WellFormed() && k in cfg.specs && Desired(cfg, k).Ok?
  {
    BudgetLaws.Capacity(|HealthyPods(s.pods, k)|, Desired(cfg, k).value)
  }

  lemma {:induction false} SpentAtMostCapacity(cfg: Config, s: State, steps: seq<Step>, k: Key)
    requires cfg.WellFormed() && cfg.InTime() && Start(cfg, s) && k in cfg.specs && Desired(cfg, k).Ok?
    requires Valid(cfg, s, steps) && AllAssumed(cfg, s, steps) && Dwindles(steps)
    ensures Spent(cfg, s, steps, k) <= CapacityOf(cfg, s, k)
  {
    StartInv(cfg, s);
    RunSpends(cfg, s, steps, k);
    RunLeavesEnough(cfg, s, steps, k);
  }

  // ----- and no less

  /** All clusters in a sequence, beginning with this one. */
  lemma {:induction false} Enumerates(clusters: set<Cluster>, first: Cluster) returns (all: seq<Cluster>)
    requires first in clusters
    ensures Distinct(all) && Members(all) == clusters && 0 < |all| && all[0] == first
    decreases |clusters|
  {
    if clusters - {first} == {} {
      all := [first];
      assert clusters == {first} && first in all;
    } else {
      var c :| c in clusters - {first};
      var rest := Enumerates(clusters - {c}, first);
      all := rest + [c];
      assert c !in Members(rest);
      forall i, j | 0 <= i < j < |all|
        ensures all[i] != all[j]
      {
        assert rest[i] in Members(rest);
      }
      forall x
        ensures x in Members(all) <==> x in clusters
      {
        assert x in all <==> x in rest || x == c;
        assert x in rest <==> x in Members(rest);
      }
    }
  }

  /** Some time later no lease is live any more. */
  lemma {:induction false} AllExpire(leases: map<Slot, Lease>, now: Time) returns (wait: nat)
    ensures forall slot | slot in leases :: !Live(leases[slot], now + wait)
    decreases |leases|
  {
    if leases == map[] {
      wait := 0;
    } else {
      var slot :| slot in leases;
      var rest := leases - {slot};
      assert rest.Keys == leases.Keys - {slot};
      wait := AllExpire(rest, now);
      var end := leases[slot].acquired + leases[slot].duration;
      forall other | other in leases && other != slot
        ensures !Live(leases[other], now + wait)
      {
        assert other in rest && rest[other] == leases[other];
      }
      if now + wait < end {
        wait := end - now;
      }
    }
  }

  /** All pods are in the mesh, and those that the budget counts match no other budget. */
  predicate Tidy(cfg: Config, pods: map<PodId, Pod>, k: Key) {
    forall p | p in pods :: pods[p].cluster in cfg.clusters && (Counts(pods[p], k) ==> pods[p].budgets == {k})
  }

  /** No eviction is under way, and identities from this one on are new. */
  predicate Settled(t: State, next: Identity) {
    && (forall id | id in t.requests :: id < next && !t.requests[id].phase.Admitted?)
    && (forall id | id in t.lock.requests :: id < next)
  }

  lemma WaitsForLeases(cfg: Config, rules: Rules, s: State, t: State, next: Identity) returns (t': State)
    requires cfg.WellFormed() && Reaches(cfg, rules, s, t) && Settled(t, next)
    ensures Reaches(cfg, rules, s, t') && Settled(t', next) && t'.pods == t.pods
    ensures forall slot :: t'.lock.store.Free(slot, t'.lock.now)
  {
    var wait := AllExpire(t.lock.store.leases, t.lock.now);
    ReachesNext(cfg, rules, s, t, Tick(wait));
    t' := t.(lock := t.lock.(now := t.lock.now + wait));
  }

  lemma ListsAreAll(cfg: Config, pods: map<PodId, Pod>, a: Ask)
    requires Distinct(a.clusters) && Members(a.clusters) == cfg.clusters && Tidy(cfg, pods, a.budget)
    ensures Sum(Sizes(FullLists(pods, a))) == |HealthyPods(pods, a.budget)|
  {
    var lists := FullLists(pods, a);
    forall i, j | 0 <= i < j < |lists|
      ensures lists[i] !! lists[j]
    {
      HealthyAtParts(pods, a.budget, a.clusters[i], a.clusters[j]);
    }
    DisjointUnionSize(lists);
    QuietCollection.PartsMakeAll(cfg, pods, a.budget, a.clusters, lists);
  }

  /** With room in the budget, the verdict is positive wherever it is taken. */
  lemma RoomPasses(cfg: Config, pods: map<PodId, Pod>, a: Ask)
    requires cfg.WellFormed() && a.budget in cfg.specs && a.ready && Desired(cfg, a.budget).Ok?
    requires Distinct(a.clusters) && Members(a.clusters) == cfg.clusters && Tidy(cfg, pods, a.budget)
    requires Fits(|HealthyPods(pods, a.budget)|) && 0 < |HealthyPods(pods, a.budget)|
    requires |HealthyPods(pods, a.budget)| - 1 >= Desired(cfg, a.budget).value
    ensures Passes(cfg, pods, a)
  {
    ListsAreAll(cfg, pods, a);
    ExpectedIsTotal(cfg, a.budget, a.clusters);
  }

  /** The request for p that asks every cluster. */
  lemma AsksAll(cfg: Config, rules: Rules, t: State, k: Key, p: PodId, next: Identity) returns (a: Ask)
    requires cfg.WellFormed() && k in cfg.specs && Settled(t, next) && Tidy(cfg, t.pods, k)
    requires p in HealthyPods(t.pods, k) && forall slot :: t.lock.store.Free(slot, t.lock.now)
    ensures a.id == next && a.budget == k && a.pod == p && a.ready && MayAsk(cfg, rules, t, a)
    ensures Distinct(a.clusters) && Members(a.clusters) == cfg.clusters
  {
    var clusters := Enumerates(cfg.clusters, t.pods[p].cluster);
    assert forall c | c in clusters :: c in Members(clusters);
    a := Ask(next, k, p, true, clusters);
  }

  lemma EvictsNow(cfg: Config, rules: Rules, s: State, t: State, a: Ask) returns (u: State)
    requires cfg.WellFormed() && 0 < cfg.timeout && Reaches(cfg, rules, s, t)
    requires MayAsk(cfg, rules, t, a) && Passes(cfg, t.pods, a) && Settled(t, a.id)
    ensures Reaches(cfg, rules, s, u) && Settled(u, a.id + 1) && u.pods == Remove(t.pods, a.pod)
  {
    var u1 := GetsAdmitted(cfg, rules, s, t, a);
    IsSettledAfter(t, u1, a);
    TakesEffect(cfg, rules, s, u1, a.id);
    u := AfterEvict(u1, a.id);
  }

  lemma IsSettledAfter(t: State, u: State, a: Ask)
    requires SameOthers(t, u, a.id) && OwnAsk(t, u.requests[a.id], a, 0, Admitted(t.lock.now))
    requires Settled(t, a.id) && a.pod in t.pods
    ensures IsAdmitted(u, a.id) && u.requests[a.id].candidate in u.pods
    ensures Settled(AfterEvict(u, a.id), a.id + 1) && AfterEvict(u, a.id).pods == Remove(t.pods, a.pod)
  {
  }

  lemma EvictsOne(cfg: Config, rules: Rules, s: State, t: State, k: Key, p: PodId, next: Identity) returns (u: State)
    requires cfg.WellFormed() && 0 < cfg.timeout && k in cfg.specs && Desired(cfg, k).Ok?
    requires Reaches(cfg, rules, s, t) && Settled(t, next) && Tidy(cfg, t.pods, k) && p in HealthyPods(t.pods, k)
    requires Fits(|HealthyPods(t.pods, k)|) && 0 < |HealthyPods(t.pods, k)|
    requires |HealthyPods(t.pods, k)| - 1 >= Desired(cfg, k).value
    ensures Reaches(cfg, rules, s, u) && Settled(u, next + 1) && u.pods == Remove(t.pods, p)
  {
    var t' := WaitsForLeases(cfg, rules, s, t, next);
    var a := AsksAll(cfg, rules, t', k, p, next);
    RoomPasses(cfg, t'.pods, a);
    u := EvictsNow(cfg, rules, s, t', a);
  }

  /** From a settled state, evictions go on until the capacity is used up. */
  lemma {:induction false} UsesCapacity(cfg: Config, rules: Rules, s: State, t: State, k: Key, next: Identity)
    returns (u: State)
    requires cfg.WellFormed() && 0 < cfg.timeout && k in cfg.specs && Desired(cfg, k).Ok?
    requires Reaches(cfg, rules, s, t) && Settled(t, next) && Tidy(cfg, t.pods, k) && Fits(|HealthyPods(t.pods, k)|)
    ensures Reaches(cfg, rules, s, u) && |HealthyPods(u.pods, k)| == |HealthyPods(t.pods, k)| - CapacityOf(cfg, t, k)
    decreases |HealthyPods(t.pods, k)|
  {
    u := t;
    if CapacityOf(cfg, t, k) != 0 {
      var p :| p in HealthyPods(t.pods, k);
      var t' := EvictsOne(cfg, rules, s, t, k, p, next);
      CapacityShrinks(cfg, t, t', k, p);
      u := UsesCapacity(cfg, rules, s, t', k, next + 1);
    }
  }

  lemma CapacityShrinks(cfg: Config, t: State, t': State, k: Key, p: PodId)
    requires cfg.WellFormed() && k in cfg.specs && Desired(cfg, k).Ok? && CapacityOf(cfg, t, k) != 0
    requires p in HealthyPods(t.pods, k) && t'.pods == Remove(t.pods, p) && Tidy(cfg, t.pods, k)
    ensures |HealthyPods(t'.pods, k)| == |HealthyPods(t.pods, k)| - 1
    ensures CapacityOf(cfg, t', k) == CapacityOf(cfg, t, k) - 1 && Tidy(cfg, t'.pods, k)
  {
    RemoveTakesOne(t.pods, p, k);
  }

  lemma {:induction false} ClosedDwindles(cfg: Config, s: State, steps: seq<Step>)
    requires cfg.WellFormed() && Valid(cfg, s, steps) && Allowed(cfg, Rules(None, true), s, steps)
    ensures Dwindles(steps)
    decreases |steps|
  {
    if steps != [] {
      ClosedDwindles(cfg, Apply(cfg, s, steps[0]), steps[1..]);
      assert steps == [steps[0]] + steps[1..];
    }
  }

  /** Some run spends the whole capacity. */
  lemma {:induction false} CapacityIsSpent(cfg: Config, s: State, k: Key) returns (steps: seq<Step>)
    requires cfg.WellFormed() && 0 < cfg.timeout && k in cfg.specs && Desired(cfg, k).Ok?
    requires Start(cfg, s) && Tidy(cfg, s.pods, k) && Fits(|HealthyPods(s.pods, k)|)
    ensures Valid(cfg, s, steps) && AllAssumed(cfg, s, steps) && Dwindles(steps)
    ensures Spent(cfg, s, steps, k) == CapacityOf(cfg, s, k)
  {
    var rules := Rules(None, true);
    ReachesSelf(cfg, rules, s);
    var u := UsesCapacity(cfg, rules, s, s, k, 0);
    steps :| Valid(cfg, s, steps) && Allowed(cfg, rules, s, steps) && Final(cfg, s, steps) == u;
    AllowedIsAssumed(cfg, rules, s, steps);
    ClosedDwindles(cfg, s, steps);
    RunSpends(cfg, s, steps, k);
  }

  /** n counted pods can be evicted in a row by some run in which none recovers and none comes. */
  ghost predicate CanSpend(cfg: Config, s: State, k: Key, n: nat)
    requires cfg.WellFormed()
  {
    exists steps :: Valid(cfg, s, steps) && AllAssumed(cfg, s, steps) && Dwindles(steps) && Spent(cfg, s, steps, k) == n
  }

  /** Exact eviction capacity, over all interleavings on the whole mesh: the most that can be
      spent is the capacity, and it can be spent. */
  lemma {:induction false} CapacityIsExact(cfg: Config, s: State, k: Key)
    requires cfg.WellFormed() && cfg.InTime() && 0 < cfg.timeout && k in cfg.specs && Desired(cfg, k).Ok?
    requires Start(cfg, s) && Tidy(cfg, s.pods, k) && Fits(|HealthyPods(s.pods, k)|)
    ensures CanSpend(cfg, s, k, CapacityOf(cfg, s, k))
    ensures forall n: nat | CanSpend(cfg, s, k, n) :: n <= CapacityOf(cfg, s, k)
  {
    var _ := CapacityIsSpent(cfg, s, k);
    forall n: nat | CanSpend(cfg, s, k, n)
      ensures n <= CapacityOf(cfg, s, k)
    {
      var steps :| Valid(cfg, s, steps) && AllAssumed(cfg, s, steps) && Dwindles(steps)
                   && Spent(cfg, s, steps, k) == n;
      SpentAtMostCapacity(cfg, s, steps, k);
    }
  }
}
