/** The admission handlers of all clusters and replicas, running over the lease lock.

    A request that has passed the gates (exactly one unsuspended budget matches its pod)
    locks, collects the pod lists of every endpoint one at a time, decides, asks the probe,
    and either answers the API server with the leases still held or denies and unlocks.
    An eviction that was allowed becomes visible in the pod lists some time later.

    The model keeps, for every list that was read, which pods were counted as healthy; the
    decision only uses how many there are. */
module Admission {
  import opened Int32
  import opened Leases
  import opened Sums
  import opened Budget
  import LP = LockProtocol

  type PodId = nat
  type Key = nat

  /** budgets: the keys of all XPDBs whose selector matches the pod. */
  datatype Pod = Pod(cluster: Cluster, budgets: set<Key>, ready: bool, terminating: bool)

  /** duration, timeout and visibility are the lease duration, the webhook timeout and the
      longest time until an allowed eviction shows in the pod lists.  leftover is the least
      duration stored in a lease from earlier times, which a takeover would keep. */
  datatype Config = Config(
    duration: nat,
    leftover: nat,
    timeout: nat,
    visibility: nat,
    clusters: set<Cluster>,
    specs: map<Key, Spec>,
    names: map<Key, LeaseName>,
    scale: map<Key, map<Cluster, int>>)
  {
    predicate WellFormed() {
      && names.Keys == specs.Keys == scale.Keys
      && (forall k | k in scale :: scale[k].Keys == clusters)
    }

    /** How long every lease runs at least. */
    function Window(): nat {
      if leftover < duration then leftover else duration
    }

    predicate InTime() {
      timeout + visibility <= Window()
    }
  }

  datatype Phase =
    | Locking
    | Collecting
    | Cleared               // the budget allows it
    | Admitted(at: Time)    // the API server has the allow response
    | Evicted
    | Dropped               // the API server did not carry it out
    | Late                  // the allow response came after the webhook timeout
    | Denied

  datatype Request = Request(
    budget: Key,
    candidate: PodId,
    snapshotReady: bool,
    counted: seq<Option<set<PodId>>>,
    phase: Phase)

  datatype State = State(lock: LP.State, requests: map<Identity, Request>, pods: map<PodId, Pod>)

  datatype Step =
    | Tick(elapsed: nat)
    | Arrive(id: Identity, budget: Key, candidate: PodId, snapshotReady: bool, clusters: seq<Cluster>)
    | LockWork(work: LP.Step)
    | LockReturns(id: Identity, ok: bool)
    | Collect(id: Identity, i: nat)
    | CollectFails(id: Identity)
    | Decide(id: Identity)
    | ProbeRefuses(id: Identity)
    | Respond(id: Identity)
    | Evict(id: Identity)
    | Drop(id: Identity)
    | Recover(pod: PodId)
    | Spawn(pod: PodId, newcomer: Pod)
    | Lose(pod: PodId, removed: bool)

  // ----- counting

  function Members(clusters: seq<Cluster>): set<Cluster> {
    set c | c in clusters
  }

  predicate Counts(pod: Pod, k: Key) {
    k in pod.budgets && pod.ready && !pod.terminating
  }

  function HealthyPods(pods: map<PodId, Pod>, k: Key): set<PodId> {
    set p | p in pods && Counts(pods[p], k)
  }

  function HealthyAt(pods: map<PodId, Pod>, k: Key, c: Cluster): set<PodId> {
    set p | p in pods && Counts(pods[p], k) && pods[p].cluster == c
  }

  function Lists(counted: seq<Option<set<PodId>>>): seq<set<PodId>> {
    seq(|counted|, i requires 0 <= i < |counted| => if counted[i].Some? then counted[i].value else {})
  }

  /** The expected count the handler adds up over its endpoints. */
  function Expected(cfg: Config, k: Key, clusters: seq<Cluster>): int
    requires cfg.WellFormed() && k in cfg.scale && (forall c | c in clusters :: c in cfg.clusters)
  {
    Sum(Values(cfg.scale[k], clusters))
  }

  function VerdictOf(cfg: Config, k: Key, clusters: seq<Cluster>, r: Request): Result<bool>
    requires cfg.WellFormed() && k in cfg.scale && (forall c | c in clusters :: c in cfg.clusters)
  {
    Verdict(cfg.specs[k], r.snapshotReady, Values(cfg.scale[k], clusters), Sizes(Lists(r.counted)))
  }

  /** n healthy pods satisfy the budget of the whole mesh. */
  ghost predicate Meets(cfg: Config, k: Key, n: nat)
    requires cfg.WellFormed() && k in cfg.specs
  {
    match DesiredHealthy(cfg.specs[k], Wrap(SumMap(cfg.scale[k])))
    case Ok(desired) => n >= desired
    case Err => true
  }

  // ----- the step relation

  predicate InPhase(s: State, id: Identity, phase: Phase) {
    id in s.requests && id in s.lock.requests && s.requests[id].phase == phase
  }

  predicate Enabled(cfg: Config, s: State, step: Step)
    requires cfg.WellFormed()
  {
    match step
    case Tick(_) => true
    case Arrive(id, budget, candidate, _, clusters) =>
      && LP.Enabled(s.lock, LP.Begin(id, 0, clusters))
      && id !in s.requests
      && candidate in s.pods
      && s.pods[candidate].budgets == {budget} && budget in cfg.specs
      && s.pods[candidate].cluster == clusters[0]
      && (forall c | c in clusters :: c in cfg.clusters)
    case LockWork(work) => LP.IsTaskWork(work) && LP.Enabled(s.lock, work)
    case LockReturns(id, ok) =>
      InPhase(s, id, Locking) && LP.Enabled(s.lock, if ok then LP.Grant(id) else LP.Fail(id))
    case Collect(id, i) =>
      && InPhase(s, id, Collecting)
      && i < |s.requests[id].counted| == |s.lock.requests[id].clusters|
      && s.requests[id].counted[i].None?
      && (i == 0 ==> forall j | 0 < j < |s.requests[id].counted| :: s.requests[id].counted[j].Some?)
    case CollectFails(id) => InPhase(s, id, Collecting) && LP.Enabled(s.lock, LP.BeginUnlock(id))
    case Decide(id) =>
      && InPhase(s, id, Collecting) && LP.Enabled(s.lock, LP.BeginUnlock(id))
      && s.requests[id].budget in cfg.scale
      && (forall c | c in s.lock.requests[id].clusters :: c in cfg.clusters)
      && (forall j | 0 <= j < |s.requests[id].counted| :: s.requests[id].counted[j].Some?)
    case ProbeRefuses(id) => InPhase(s, id, Cleared) && LP.Enabled(s.lock, LP.BeginUnlock(id))
    case Respond(id) => InPhase(s, id, Cleared)
    case Evict(id) => IsAdmitted(s, id) && s.requests[id].candidate in s.pods
    case Drop(id) => IsAdmitted(s, id)
    case Recover(pod) => pod in s.pods
    case Spawn(pod, _) => pod !in s.pods
    case Lose(pod, _) => pod in s.pods
  }

  predicate IsAdmitted(s: State, id: Identity) {
    id in s.requests && id in s.lock.requests && s.requests[id].phase.Admitted?
  }

  function WithPhase(s: State, id: Identity, phase: Phase): State
    requires id in s.requests
  {
    s.(requests := s.requests[id := s.requests[id].(phase := phase)])
  }

  /** A denial after a successful Lock gives the leases back. */
  function DenyAndUnlock(cfg: Config, s: State, id: Identity): State
    requires id in s.requests && LP.Enabled(s.lock, LP.BeginUnlock(id))
  {
    WithPhase(s, id, Denied).(lock := LP.Apply(cfg.duration, s.lock, LP.BeginUnlock(id)))
  }

  function AfterLock(cfg: Config, s: State, id: Identity, ok: bool): State
    requires id in s.requests && LP.Enabled(s.lock, if ok then LP.Grant(id) else LP.Fail(id))
  {
    WithPhase(s, id, if ok then Collecting else Denied)
      .(lock := LP.Apply(cfg.duration, s.lock, if ok then LP.Grant(id) else LP.Fail(id)))
  }

  function AfterCollect(s: State, id: Identity, i: nat): State
    requires id in s.requests && id in s.lock.requests
    requires i < |s.requests[id].counted| == |s.lock.requests[id].clusters|
  {
    var r := s.requests[id];
    var list := HealthyAt(s.pods, r.budget, s.lock.requests[id].clusters[i]);
    s.(requests := s.requests[id := r.(counted := r.counted[i := Some(list)])])
  }

  function Answer(cfg: Config, s: State, id: Identity): Phase
    requires id in s.lock.requests
  {
    if s.lock.now < s.lock.requests[id].start + cfg.timeout then Admitted(s.lock.now) else Late
  }

  function Remove(pods: map<PodId, Pod>, p: PodId): map<PodId, Pod>
    requires p in pods
  {
    pods[p := pods[p].(terminating := true)]
  }

  function AfterEvict(s: State, id: Identity): State
    requires id in s.requests && s.requests[id].candidate in s.pods
  {
    WithPhase(s, id, Evicted).(pods := Remove(s.pods, s.requests[id].candidate))
  }

  function AfterArrive(cfg: Config, s: State, id: Identity, budget: Key, candidate: PodId, snapshotReady: bool,
                       clusters: seq<Cluster>): State
    requires budget in cfg.names && id !in s.lock.requests && 0 < |clusters|
  {
    s.(lock := LP.Apply(cfg.duration, s.lock, LP.Begin(id, cfg.names[budget], clusters)),
       requests := s.requests[id := Request(budget, candidate, snapshotReady, seq(|clusters|, _ => None), Locking)])
  }

  function AfterDecide(cfg: Config, s: State, id: Identity): State
    requires cfg.WellFormed() && id in s.requests && LP.Enabled(s.lock, LP.BeginUnlock(id))
    requires s.requests[id].budget in cfg.scale && (forall c | c in s.lock.requests[id].clusters :: c in cfg.clusters)
  {
    if VerdictOf(cfg, s.requests[id].budget, s.lock.requests[id].clusters, s.requests[id]) == Ok(true)
    then WithPhase(s, id, Cleared)
    else DenyAndUnlock(cfg, s, id)
  }

  function Apply(cfg: Config, s: State, step: Step): State
    requires cfg.WellFormed() && Enabled(cfg, s, step)
  {
    match step
    case Tick(elapsed) => s.(lock := LP.Apply(cfg.duration, s.lock, LP.Tick(elapsed)))
    case Arrive(id, budget, candidate, snapshotReady, clusters) =>
      AfterArrive(cfg, s, id, budget, candidate, snapshotReady, clusters)
    case LockWork(work) => s.(lock := LP.Apply(cfg.duration, s.lock, work))
    case LockReturns(id, ok) => AfterLock(cfg, s, id, ok)
    case Collect(id, i) => AfterCollect(s, id, i)
    case CollectFails(id) => DenyAndUnlock(cfg, s, id)
    case Decide(id) => AfterDecide(cfg, s, id)
    case ProbeRefuses(id) => DenyAndUnlock(cfg, s, id)
    case Respond(id) => WithPhase(s, id, Answer(cfg, s, id))
    case Evict(id) => AfterEvict(s, id)
    case Drop(id) => WithPhase(s, id, Dropped)
    case Recover(pod) => s.(pods := s.pods[pod := s.pods[pod].(ready := true)])
    case Spawn(pod, newcomer) => s.(pods := s.pods[pod := newcomer])
    case Lose(pod, removed) =>
      var p := s.pods[pod];
      s.(pods := s.pods[pod := if removed then p.(terminating := true) else p.(ready := false)])
  }

  /** What budget safety asks of the environment, step by step:
      unlocks are timely; every request asks every cluster; an admitted eviction shows (or is
      dropped) before its visibility bound; a candidate that a list counts as healthy was
      ready in the request's snapshot; no counted pod is lost otherwise. */
  predicate Assumed(cfg: Config, s: State, step: Step)
    requires cfg.WellFormed() && Enabled(cfg, s, step)
  {
    match step
    case Tick(elapsed) =>
      forall id | id in s.requests && IsAdmitted(s, id) :: s.lock.now + elapsed <= s.requests[id].phase.at + cfg.visibility
    case Arrive(_, _, _, _, clusters) => Members(clusters) == cfg.clusters
    case LockWork(work) => LP.Timely(s.lock, work)
    case Collect(id, i) =>
      var r := s.requests[id];
      r.candidate in HealthyAt(s.pods, r.budget, s.lock.requests[id].clusters[i]) ==> r.snapshotReady
    case Lose(pod, _) => forall k | k in cfg.specs :: !Counts(s.pods[pod], k)
    case _ => true
  }

  predicate Valid(cfg: Config, s: State, steps: seq<Step>)
    requires cfg.WellFormed()
    decreases |steps|
  {
    steps == [] || (Enabled(cfg, s, steps[0]) && Valid(cfg, Apply(cfg, s, steps[0]), steps[1..]))
  }

  function Final(cfg: Config, s: State, steps: seq<Step>): State
    requires cfg.WellFormed() && Valid(cfg, s, steps)
    decreases |steps|
  {
    if steps == [] then s else Final(cfg, Apply(cfg, s, steps[0]), steps[1..])
  }

  predicate AllAssumed(cfg: Config, s: State, steps: seq<Step>)
    requires cfg.WellFormed() && Valid(cfg, s, steps)
    decreases |steps|
  {
    steps == [] ||
    (Assumed(cfg, s, steps[0]) && AllAssumed(cfg, Apply(cfg, s, steps[0]), steps[1..]))
  }

  /** No handler is running; pods and leftover leases are arbitrary. */
  predicate Initial(s: State) {
    LP.Initial(s.lock) && s.requests == map[]
  }

  /** The same, with nothing but the configured bound known about the leftover leases. */
  predicate Start(cfg: Config, s: State) {
    Initial(s) && s.lock.store.Lasts(cfg.leftover)
  }

  // ----- invariant

  /** The request still relies on its leases. */
  predicate Active(r: Request) {
    r.phase.Collecting? || r.phase.Cleared? || r.phase.Admitted?
  }

  predicate InWindow(cfg: Config, now: Time, l: LP.Request) {
    now < l.start + cfg.Window()
  }

  /** Every list read so far still holds only healthy pods of its cluster. */
  predicate ListsSound(pods: map<PodId, Pod>, l: LP.Request, r: Request) {
    && |r.counted| == |l.clusters|
    && forall i :: 0 <= i < |r.counted| && r.counted[i].Some? ==>
         && r.counted[i].value <= HealthyAt(pods, r.budget, l.clusters[i])
         && (r.candidate in r.counted[i].value ==> r.snapshotReady)
  }

  /** The budget is met even without the candidate. */
  ghost predicate Spare(cfg: Config, pods: map<PodId, Pod>, r: Request)
    requires cfg.WellFormed() && r.budget in cfg.specs
  {
    Meets(cfg, r.budget, |HealthyPods(pods, r.budget) - {r.candidate}|)
  }

  ghost predicate RequestSound(cfg: Config, now: Time, pods: map<PodId, Pod>, l: LP.Request, r: Request)
    requires cfg.WellFormed()
  {
    && r.budget in cfg.specs && l.name == cfg.names[r.budget]
    && Members(l.clusters) == cfg.clusters
    && |r.counted| == |l.clusters|
    && r.candidate in pods && pods[r.candidate].budgets == {r.budget}
    && (Active(r) ==> l.status.Granted?)
    && (r.phase.Locking? ==> forall i :: 0 <= i < |r.counted| ==> r.counted[i].None?)
    && (r.phase.Collecting? && InWindow(cfg, now, l) ==> ListsSound(pods, l, r))
    && ((r.phase.Cleared? || r.phase.Admitted?) && InWindow(cfg, now, l) ==> Spare(cfg, pods, r))
    && (r.phase.Admitted? ==>
          l.start <= r.phase.at < l.start + cfg.timeout && now <= r.phase.at + cfg.visibility)
  }

  ghost predicate AllSound(cfg: Config, s: State)
    requires cfg.WellFormed()
  {
    forall id :: id in s.requests ==>
      id in s.lock.requests && RequestSound(cfg, s.lock.now, s.pods, s.lock.requests[id], s.requests[id])
  }

  ghost predicate Inv(cfg: Config, s: State)
    requires cfg.WellFormed()
  {
    LP.Consistent(s.lock) && LP.Held(s.lock) && LP.Lasting(cfg.Window(), s.lock) && AllSound(cfg, s)
  }

  /** Two requests of one budget never rely on their leases at the same time. */
  lemma Exclusive(cfg: Config, s: State, a: Identity, b: Identity)
    requires cfg.WellFormed() && Inv(cfg, s)
    requires a in s.requests && b in s.requests
    requires Active(s.requests[a]) && Active(s.requests[b]) && s.requests[a].budget == s.requests[b].budget
    requires InWindow(cfg, s.lock.now, s.lock.requests[a]) && InWindow(cfg, s.lock.now, s.lock.requests[b])
    ensures a == b
  {
    var la, lb := s.lock.requests[a], s.lock.requests[b];
    assert RequestSound(cfg, s.lock.now, s.pods, la, s.requests[a]);
    assert RequestSound(cfg, s.lock.now, s.pods, lb, s.requests[b]);
    LP.DistinctWhileGranted(cfg.Window(), s.lock, a);
    LP.DistinctWhileGranted(cfg.Window(), s.lock, b);
    assert LP.RequestSound(s.lock.now, s.lock.store, a, la);
    var c := la.clusters[0];
    assert c in Members(la.clusters);
    assert c in Members(lb.clusters);
    var j :| 0 <= j < |lb.clusters| && lb.clusters[j] == c;
    assert LP.Protected(cfg.Window(), s.lock, a, 0) && LP.Protected(cfg.Window(), s.lock, b, j);
    LP.ProtectedSlotsAreDisjoint(cfg.Window(), s.lock, a, 0, b, j);
  }

  // ----- collecting and deciding

  lemma HealthyAtParts(pods: map<PodId, Pod>, k: Key, c: Cluster, d: Cluster)
    requires c != d
    ensures HealthyAt(pods, k, c) !! HealthyAt(pods, k, d)
    ensures HealthyAt(pods, k, c) <= HealthyPods(pods, k)
  {
  }

  /** Lists that were read one at a time add up to the size of one set of pods, all of them
      healthy now. */
  lemma ListsAddUp(pods: map<PodId, Pod>, l: LP.Request, r: Request)
    requires ListsSound(pods, l, r) && Distinct(l.clusters)
    ensures |Union(Lists(r.counted))| == Sum(Sizes(Lists(r.counted)))
    ensures Union(Lists(r.counted)) <= HealthyPods(pods, r.budget)
    ensures r.candidate in Union(Lists(r.counted)) ==> r.snapshotReady
  {
    var lists := Lists(r.counted);
    forall i, j | 0 <= i < j < |lists|
      ensures lists[i] !! lists[j]
    {
      HealthyAtParts(pods, r.budget, l.clusters[i], l.clusters[j]);
    }
    DisjointUnionSize(lists);
    forall p | p in Union(lists)
      ensures p in HealthyPods(pods, r.budget) && (p == r.candidate ==> r.snapshotReady)
    {
      UnionMember(lists, p);
      var i :| 0 <= i < |lists| && p in lists[i];
      assert r.counted[i].Some?;
    }
  }

  lemma ExpectedIsTotal(cfg: Config, k: Key, clusters: seq<Cluster>)
    requires cfg.WellFormed() && k in cfg.scale
    requires Distinct(clusters) && Members(clusters) == cfg.clusters
    ensures forall c | c in clusters :: c in cfg.clusters
    ensures Expected(cfg, k, clusters) == SumMap(cfg.scale[k])
  {
    assert forall c | c in clusters :: c in Members(clusters);
    assert forall c | c in cfg.scale[k] :: c in Members(clusters);
    SumEnumerates(cfg.scale[k], clusters);
  }

  /** Wrap-around never helps: an int32 count is at most the count itself. */
  lemma AllowedMeansRoom(spec: Spec, ready: bool, expected: int, healthy: nat)
    requires DisruptionAllowed(Some(spec), ready, expected, Wrap(healthy)) == Ok(true)
    ensures DesiredHealthy(spec, expected).Ok?
    ensures healthy + (if ready then 0 else 1) - 1 >= DesiredHealthy(spec, expected).value
  {
    var compensation := if ready then 0 else 1;
    WrapAbsorbs(healthy, compensation);
    WrapAbsorbs(healthy + compensation, -1);
    assert Wrap(healthy + compensation - 1) <= healthy + compensation - 1;
  }

  lemma WithoutCandidate(all: set<PodId>, counted: set<PodId>, candidate: PodId)
    requires counted <= all
    ensures |all - {candidate}| >= |counted - {candidate}|
    ensures |counted - {candidate}| == |counted| - (if candidate in counted then 1 else 0)
  {
    SubsetSize(counted - {candidate}, all - {candidate});
  }

  lemma {:induction false} SubsetSize<T>(a: set<T>, b: set<T>)
    requires a <= b
    ensures |a| <= |b|
    decreases a
  {
    if a != {} {
      var x :| x in a;
      SubsetSize(a - {x}, b - {x});
    }
  }

  /** A positive verdict leaves the budget met without the candidate. */
  lemma VerdictIsSound(cfg: Config, pods: map<PodId, Pod>, l: LP.Request, r: Request)
    requires cfg.WellFormed() && r.budget in cfg.specs
    requires ListsSound(pods, l, r) && Distinct(l.clusters) && Members(l.clusters) == cfg.clusters
    requires forall c | c in l.clusters :: c in cfg.clusters
    requires VerdictOf(cfg, r.budget, l.clusters, r) == Ok(true)
    ensures Spare(cfg, pods, r)
  {
    var counted := Union(Lists(r.counted));
    ListsAddUp(pods, l, r);
    ExpectedIsTotal(cfg, r.budget, l.clusters);
    AllowedMeansRoom(cfg.specs[r.budget], r.snapshotReady, Wrap(SumMap(cfg.scale[r.budget])), |counted|);
    WithoutCandidate(HealthyPods(pods, r.budget), counted, r.candidate);
  }

  // ----- preservation

  lemma MoreIsEnough(cfg: Config, k: Key, few: set<PodId>, many: set<PodId>)
    requires cfg.WellFormed() && k in cfg.specs && few <= many && Meets(cfg, k, |few|)
    ensures Meets(cfg, k, |many|)
  {
    SubsetSize(few, many);
  }

  /** pods' has every healthy pod of the budget that pods has. */
  predicate KeepsHealthy(pods: map<PodId, Pod>, pods': map<PodId, Pod>, k: Key) {
    forall p | p in pods :: p in pods' && pods'[p].cluster == pods[p].cluster && pods'[p].budgets == pods[p].budgets
                            && (Counts(pods[p], k) ==> Counts(pods'[p], k))
  }

  lemma KeepingHealthyKeepsSound(cfg: Config, now: Time, pods: map<PodId, Pod>, pods': map<PodId, Pod>,
                                 l: LP.Request, r: Request)
    requires cfg.WellFormed() && RequestSound(cfg, now, pods, l, r) && KeepsHealthy(pods, pods', r.budget)
    ensures RequestSound(cfg, now, pods', l, r)
  {
    if (r.phase.Cleared? || r.phase.Admitted?) && InWindow(cfg, now, l) {
      MoreIsEnough(cfg, r.budget, HealthyPods(pods, r.budget) - {r.candidate},
                   HealthyPods(pods', r.budget) - {r.candidate});
    }
    if r.phase.Collecting? && InWindow(cfg, now, l) {
      forall i | 0 <= i < |r.counted| && r.counted[i].Some?
        ensures r.counted[i].value <= HealthyAt(pods', r.budget, l.clusters[i])
      {
        assert HealthyAt(pods, r.budget, l.clusters[i]) <= HealthyAt(pods', r.budget, l.clusters[i]);
      }
    }
  }

  lemma LaterKeepsSound(cfg: Config, now: Time, later: Time, pods: map<PodId, Pod>, l: LP.Request, r: Request)
    requires cfg.WellFormed() && RequestSound(cfg, now, pods, l, r) && now <= later
    requires r.phase.Admitted? ==> later <= r.phase.at + cfg.visibility
    ensures RequestSound(cfg, later, pods, l, r)
  {
  }

  /** The lock machine keeps what an admission request relies on. */
  predicate SameCall(l: LP.Request, l': LP.Request) {
    l'.start == l.start && l'.name == l.name && l'.clusters == l.clusters && l'.status == l.status
  }

  lemma SameCallKeepsSound(cfg: Config, now: Time, pods: map<PodId, Pod>, l: LP.Request, l': LP.Request, r: Request)
    requires cfg.WellFormed() && RequestSound(cfg, now, pods, l, r) && SameCall(l, l')
    ensures RequestSound(cfg, now, pods, l', r)
  {
  }

  lemma TaskWorkKeepsCalls(duration: nat, s: LP.State, work: LP.Step)
    requires LP.IsTaskWork(work) && LP.Enabled(s, work)
    ensures LP.Apply(duration, s, work).now == s.now
    ensures forall id :: id in s.requests ==>
              id in LP.Apply(duration, s, work).requests
              && SameCall(s.requests[id], LP.Apply(duration, s, work).requests[id])
  {
  }

  lemma LockSideKeeps(cfg: Config, s: State, work: LP.Step)
    requires cfg.WellFormed() && Inv(cfg, s)
    requires LP.Enabled(s.lock, work) && LP.Timely(s.lock, work)
    ensures LP.Consistent(LP.Apply(cfg.duration, s.lock, work))
    ensures LP.Held(LP.Apply(cfg.duration, s.lock, work))
    ensures LP.Lasting(cfg.Window(), LP.Apply(cfg.duration, s.lock, work))
  {
    LP.StepKeepsConsistent(cfg.duration, s.lock, work);
    LP.StepKeepsHeld(cfg.duration, s.lock, work);
    LP.StepKeepsLasting(cfg.Window(), cfg.duration, s.lock, work);
  }

  lemma TickKeepsInv(cfg: Config, s: State, elapsed: nat)
    requires cfg.WellFormed() && Inv(cfg, s)
    requires Assumed(cfg, s, Tick(elapsed))
    ensures Inv(cfg, Apply(cfg, s, Tick(elapsed)))
  {
    LockSideKeeps(cfg, s, LP.Tick(elapsed));
    forall id | id in s.requests
      ensures RequestSound(cfg, s.lock.now + elapsed, s.pods, s.lock.requests[id], s.requests[id])
    {
      assert s.requests[id].phase.Admitted? ==> IsAdmitted(s, id);
      LaterKeepsSound(cfg, s.lock.now, s.lock.now + elapsed, s.pods, s.lock.requests[id], s.requests[id]);
    }
  }

  lemma LockWorkKeepsInv(cfg: Config, s: State, work: LP.Step)
    requires cfg.WellFormed() && Inv(cfg, s)
    requires Enabled(cfg, s, LockWork(work)) && Assumed(cfg, s, LockWork(work))
    ensures Inv(cfg, Apply(cfg, s, LockWork(work)))
  {
    LockSideKeeps(cfg, s, work);
    TaskWorkKeepsCalls(cfg.duration, s.lock, work);
    var lock' := LP.Apply(cfg.duration, s.lock, work);
    forall id | id in s.requests
      ensures id in lock'.requests && RequestSound(cfg, lock'.now, s.pods, lock'.requests[id], s.requests[id])
    {
      SameCallKeepsSound(cfg, s.lock.now, s.pods, s.lock.requests[id], lock'.requests[id], s.requests[id]);
    }
  }

  lemma ArriveKeepsInv(cfg: Config, s: State, step: Step)
    requires cfg.WellFormed() && Inv(cfg, s)
    requires step.Arrive? && Enabled(cfg, s, step) && Assumed(cfg, s, step)
    ensures Inv(cfg, Apply(cfg, s, step))
  {
    var s' := Apply(cfg, s, step);
    LockSideKeeps(cfg, s, LP.Begin(step.id, cfg.names[step.budget], step.clusters));
    assert RequestSound(cfg, s'.lock.now, s'.pods, s'.lock.requests[step.id], s'.requests[step.id]);
    forall id | id in s'.requests
      ensures id in s'.lock.requests
              && RequestSound(cfg, s'.lock.now, s'.pods, s'.lock.requests[id], s'.requests[id])
    {
      if id != step.id {
        assert s'.lock.requests[id] == s.lock.requests[id] && s'.requests[id] == s.requests[id];
      }
    }
  }

  /** Only request id changed, and only its own side of the lock machine. */
  ghost predicate OnlyOwn(cfg: Config, s: State, s': State, id: Identity)
    requires cfg.WellFormed()
  {
    && s'.lock.now == s.lock.now && s'.pods == s.pods && s'.requests.Keys == s.requests.Keys
    && id in s'.requests && id in s'.lock.requests
    && RequestSound(cfg, s'.lock.now, s'.pods, s'.lock.requests[id], s'.requests[id])
    && forall q :: q in s.requests && q != id ==>
         s'.requests[q] == s.requests[q]
         && q in s.lock.requests && q in s'.lock.requests && s'.lock.requests[q] == s.lock.requests[q]
  }

  lemma OnlyOwnKeepsSound(cfg: Config, s: State, s': State, id: Identity)
    requires cfg.WellFormed() && AllSound(cfg, s) && OnlyOwn(cfg, s, s', id)
    ensures AllSound(cfg, s')
  {
  }

  lemma ReturnKeepsSound(cfg: Config, now: Time, pods: map<PodId, Pod>, l: LP.Request, r: Request, ok: bool)
    requires cfg.WellFormed() && RequestSound(cfg, now, pods, l, r) && r.phase.Locking?
    ensures RequestSound(cfg, now, pods, l.(status := if ok then LP.Granted else LP.Failed),
                         r.(phase := if ok then Collecting else Denied))
  {
  }

  lemma AfterLockIsSound(cfg: Config, s: State, id: Identity, ok: bool)
    requires cfg.WellFormed() && AllSound(cfg, s) && InPhase(s, id, Locking)
    requires LP.Enabled(s.lock, if ok then LP.Grant(id) else LP.Fail(id))
    ensures AllSound(cfg, AfterLock(cfg, s, id, ok))
  {
    ReturnKeepsSound(cfg, s.lock.now, s.pods, s.lock.requests[id], s.requests[id], ok);
    OnlyOwnKeepsSound(cfg, s, AfterLock(cfg, s, id, ok), id);
  }

  lemma LockReturnsKeepsInv(cfg: Config, s: State, id: Identity, ok: bool)
    requires cfg.WellFormed() && Inv(cfg, s) && InPhase(s, id, Locking)
    requires LP.Enabled(s.lock, if ok then LP.Grant(id) else LP.Fail(id))
    ensures Inv(cfg, AfterLock(cfg, s, id, ok))
  {
    LockSideKeeps(cfg, s, if ok then LP.Grant(id) else LP.Fail(id));
    AfterLockIsSound(cfg, s, id, ok);
  }

  lemma DenialKeepsSound(cfg: Config, now: Time, pods: map<PodId, Pod>, l: LP.Request, r: Request)
    requires cfg.WellFormed() && RequestSound(cfg, now, pods, l, r)
    ensures RequestSound(cfg, now, pods, l.(status := LP.Releasing), r.(phase := Denied))
  {
  }

  lemma AfterDenialIsSound(cfg: Config, s: State, id: Identity)
    requires cfg.WellFormed() && AllSound(cfg, s) && id in s.requests && LP.Enabled(s.lock, LP.BeginUnlock(id))
    ensures AllSound(cfg, DenyAndUnlock(cfg, s, id))
  {
    DenialKeepsSound(cfg, s.lock.now, s.pods, s.lock.requests[id], s.requests[id]);
    OnlyOwnKeepsSound(cfg, s, DenyAndUnlock(cfg, s, id), id);
  }

  lemma DenyKeepsInv(cfg: Config, s: State, id: Identity)
    requires cfg.WellFormed() && Inv(cfg, s) && id in s.requests && LP.Enabled(s.lock, LP.BeginUnlock(id))
    ensures Inv(cfg, DenyAndUnlock(cfg, s, id))
  {
    LockSideKeeps(cfg, s, LP.BeginUnlock(id));
    AfterDenialIsSound(cfg, s, id);
  }

  lemma CollectKeepsLists(pods: map<PodId, Pod>, l: LP.Request, r: Request, i: nat)
    requires ListsSound(pods, l, r) && i < |r.counted|
    requires r.candidate in HealthyAt(pods, r.budget, l.clusters[i]) ==> r.snapshotReady
    ensures ListsSound(pods, l, r.(counted := r.counted[i := Some(HealthyAt(pods, r.budget, l.clusters[i]))]))
  {
  }

  lemma CollectKeepsSound(cfg: Config, s: State, id: Identity, i: nat)
    requires cfg.WellFormed() && AllSound(cfg, s) && InPhase(s, id, Collecting)
    requires i < |s.requests[id].counted| == |s.lock.requests[id].clusters|
    requires
      var r := s.requests[id];
      r.candidate in HealthyAt(s.pods, r.budget, s.lock.requests[id].clusters[i]) ==> r.snapshotReady
    ensures AllSound(cfg, AfterCollect(s, id, i))
  {
    var l, r := s.lock.requests[id], s.requests[id];
    assert RequestSound(cfg, s.lock.now, s.pods, l, r);
    if InWindow(cfg, s.lock.now, l) {
      CollectKeepsLists(s.pods, l, r, i);
    }
    OnlyOwnKeepsSound(cfg, s, AfterCollect(s, id, i), id);
  }

  lemma PhaseKeepsInv(cfg: Config, s: State, id: Identity, phase: Phase)
    requires cfg.WellFormed() && Inv(cfg, s) && id in s.requests
    requires RequestSound(cfg, s.lock.now, s.pods, s.lock.requests[id], s.requests[id].(phase := phase))
    ensures Inv(cfg, WithPhase(s, id, phase))
  {
    OnlyOwnKeepsSound(cfg, s, WithPhase(s, id, phase), id);
  }

  lemma DecideKeepsInv(cfg: Config, s: State, id: Identity)
    requires cfg.WellFormed() && Inv(cfg, s) && Enabled(cfg, s, Decide(id)) && Assumed(cfg, s, Decide(id))
    ensures Inv(cfg, Apply(cfg, s, Decide(id)))
  {
    var l, r := s.lock.requests[id], s.requests[id];
    assert RequestSound(cfg, s.lock.now, s.pods, l, r);
    if VerdictOf(cfg, r.budget, l.clusters, r) == Ok(true) {
      if InWindow(cfg, s.lock.now, l) {
        LP.DistinctWhileGranted(cfg.Window(), s.lock, id);
        VerdictIsSound(cfg, s.pods, l, r);
      }
      PhaseKeepsInv(cfg, s, id, Cleared);
    } else {
      DenyKeepsInv(cfg, s, id);
    }
  }

  lemma RespondKeepsInv(cfg: Config, s: State, id: Identity)
    requires cfg.WellFormed() && Inv(cfg, s) && InPhase(s, id, Cleared)
    ensures Inv(cfg, WithPhase(s, id, Answer(cfg, s, id)))
  {
    assert LP.RequestSound(s.lock.now, s.lock.store, id, s.lock.requests[id]);
    assert RequestSound(cfg, s.lock.now, s.pods, s.lock.requests[id], s.requests[id]);
    PhaseKeepsInv(cfg, s, id, Answer(cfg, s, id));
  }

  lemma AdmittedIsInWindow(cfg: Config, now: Time, pods: map<PodId, Pod>, l: LP.Request, r: Request)
    requires cfg.WellFormed() && cfg.InTime() && RequestSound(cfg, now, pods, l, r) && r.phase.Admitted?
    ensures InWindow(cfg, now, l)
  {
  }

  /** One budget's lease is enough: evicting a pod with a single matching budget lowers the
      healthy count of no other budget. */
  lemma OtherBudgetsUntouched(pods: map<PodId, Pod>, p: PodId, k: Key, other: Key)
    requires p in pods && pods[p].budgets == {k} && other != k
    ensures KeepsHealthy(pods, Remove(pods, p), other)
    ensures HealthyPods(Remove(pods, p), other) == HealthyPods(pods, other)
  {
  }

  /** While an eviction is admitted and not visible, no other request of its budget relies on
      its leases. */
  lemma AdmittedIsAlone(cfg: Config, s: State, id: Identity, q: Identity)
    requires cfg.WellFormed() && cfg.InTime() && Inv(cfg, s)
    requires IsAdmitted(s, id) && q in s.requests && q != id
    requires s.requests[q].budget == s.requests[id].budget
    ensures !(Active(s.requests[q]) && InWindow(cfg, s.lock.now, s.lock.requests[q]))
  {
    AdmittedIsInWindow(cfg, s.lock.now, s.pods, s.lock.requests[id], s.requests[id]);
    if Active(s.requests[q]) && InWindow(cfg, s.lock.now, s.lock.requests[q]) {
      Exclusive(cfg, s, id, q);
    }
  }

  lemma OutsideWindowKeepsSound(cfg: Config, now: Time, pods: map<PodId, Pod>, pods': map<PodId, Pod>,
                                l: LP.Request, r: Request)
    requires cfg.WellFormed() && RequestSound(cfg, now, pods, l, r)
    requires !(Active(r) && InWindow(cfg, now, l))
    requires forall p | p in pods :: p in pods' && pods'[p].budgets == pods[p].budgets
    ensures RequestSound(cfg, now, pods', l, r)
  {
  }

  /** Evicting the candidate of r keeps what is claimed about another request: of another
      budget, or of the same budget outside its window. */
  lemma EvictKeepsOther(cfg: Config, now: Time, pods: map<PodId, Pod>, r: Request, l': LP.Request, r': Request)
    requires cfg.WellFormed() && RequestSound(cfg, now, pods, l', r')
    requires r.candidate in pods && pods[r.candidate].budgets == {r.budget}
    requires r'.budget == r.budget ==> !(Active(r') && InWindow(cfg, now, l'))
    ensures RequestSound(cfg, now, Remove(pods, r.candidate), l', r')
  {
    if r'.budget == r.budget {
      OutsideWindowKeepsSound(cfg, now, pods, Remove(pods, r.candidate), l', r');
    } else {
      OtherBudgetsUntouched(pods, r.candidate, r.budget, r'.budget);
      KeepingHealthyKeepsSound(cfg, now, pods, Remove(pods, r.candidate), l', r');
    }
  }

  lemma EvictKeepsSound(cfg: Config, s: State, id: Identity, q: Identity)
    requires cfg.WellFormed() && cfg.InTime() && Inv(cfg, s)
    requires IsAdmitted(s, id) && q in s.requests
    ensures s.requests[id].candidate in s.pods
    ensures RequestSound(cfg, s.lock.now, AfterEvict(s, id).pods, s.lock.requests[q], AfterEvict(s, id).requests[q])
  {
    var r := s.requests[id];
    assert RequestSound(cfg, s.lock.now, s.pods, s.lock.requests[id], r);
    if q != id {
      if s.requests[q].budget == r.budget {
        AdmittedIsAlone(cfg, s, id, q);
      }
      EvictKeepsOther(cfg, s.lock.now, s.pods, r, s.lock.requests[q], s.requests[q]);
    }
  }

  lemma EvictKeepsInv(cfg: Config, s: State, id: Identity)
    requires cfg.WellFormed() && cfg.InTime() && Inv(cfg, s)
    requires IsAdmitted(s, id) && s.requests[id].candidate in s.pods
    ensures Inv(cfg, AfterEvict(s, id))
  {
    forall q | q in s.requests
      ensures RequestSound(cfg, s.lock.now, AfterEvict(s, id).pods, s.lock.requests[q],
                           AfterEvict(s, id).requests[q])
    {
      EvictKeepsSound(cfg, s, id, q);
    }
  }

  predicate IsPodStep(step: Step) {
    step.Recover? || step.Spawn? || step.Lose?
  }

  lemma OtherStepsKeepPods(cfg: Config, s: State, step: Step)
    requires cfg.WellFormed() && Enabled(cfg, s, step) && !IsPodStep(step) && !step.Evict?
    ensures Apply(cfg, s, step).pods == s.pods
  {
  }

  /** Nothing but an eviction takes away a counted pod. */
  lemma StepKeepsHealthy(cfg: Config, s: State, step: Step, k: Key)
    requires cfg.WellFormed() && Enabled(cfg, s, step) && Assumed(cfg, s, step) && !step.Evict?
    requires k in cfg.specs
    ensures KeepsHealthy(s.pods, Apply(cfg, s, step).pods, k)
  {
    if !IsPodStep(step) {
      OtherStepsKeepPods(cfg, s, step);
    }
  }

  lemma PodStepKeepsInv(cfg: Config, s: State, step: Step)
    requires cfg.WellFormed() && Inv(cfg, s)
    requires IsPodStep(step) && Enabled(cfg, s, step) && Assumed(cfg, s, step)
    ensures Inv(cfg, Apply(cfg, s, step))
  {
    var pods' := Apply(cfg, s, step).pods;
    forall id | id in s.requests
      ensures RequestSound(cfg, s.lock.now, pods', s.lock.requests[id], s.requests[id])
    {
      StepKeepsHealthy(cfg, s, step, s.requests[id].budget);
      KeepingHealthyKeepsSound(cfg, s.lock.now, s.pods, pods', s.lock.requests[id], s.requests[id]);
    }
  }

  /** What the step is to the lock machine, if anything. */
  function LockStepOf(cfg: Config, step: Step): LP.Step
    requires step.Arrive? ==> step.budget in cfg.names
  {
    match step
    case Tick(elapsed) => LP.Tick(elapsed)
    case Arrive(id, budget, _, _, clusters) => LP.Begin(id, cfg.names[budget], clusters)
    case LockWork(work) => work
    case LockReturns(id, ok) => if ok then LP.Grant(id) else LP.Fail(id)
    case CollectFails(id) => LP.BeginUnlock(id)
    case Decide(id) => LP.BeginUnlock(id)
    case ProbeRefuses(id) => LP.BeginUnlock(id)
    case _ => LP.Tick(0)
  }

  lemma LockSide(cfg: Config, s: State, step: Step)
    requires cfg.WellFormed() && Enabled(cfg, s, step)
    ensures
      var lock' := Apply(cfg, s, step).lock;
      || lock' == s.lock
      || (LP.Enabled(s.lock, LockStepOf(cfg, step)) && lock' == LP.Apply(cfg.duration, s.lock, LockStepOf(cfg, step)))
  {
  }

  /** A step of one handler between the answer to its Lock and its own answer. */
  predicate IsHandlerStep(step: Step) {
    step.LockReturns? || step.Collect? || step.CollectFails? || step.Decide? || step.ProbeRefuses?
  }

  lemma HandlerStepKeepsInv(cfg: Config, s: State, step: Step)
    requires cfg.WellFormed() && Inv(cfg, s) && IsHandlerStep(step)
    requires Enabled(cfg, s, step) && Assumed(cfg, s, step)
    ensures Inv(cfg, Apply(cfg, s, step))
  {
    if step.LockReturns? {
      LockReturnsKeepsInv(cfg, s, step.id, step.ok);
    } else if step.Collect? {
      CollectKeepsSound(cfg, s, step.id, step.i);
    } else if step.Decide? {
      DecideKeepsInv(cfg, s, step.id);
    } else {
      DenyKeepsInv(cfg, s, step.id);
    }
  }

  lemma {:induction false} StepKeepsInv(cfg: Config, s: State, step: Step)
    requires cfg.WellFormed() && cfg.InTime() && Inv(cfg, s)
    requires Enabled(cfg, s, step) && Assumed(cfg, s, step)
    ensures Inv(cfg, Apply(cfg, s, step))
  {
    if IsHandlerStep(step) {
      HandlerStepKeepsInv(cfg, s, step);
    } else if IsPodStep(step) {
      PodStepKeepsInv(cfg, s, step);
    } else if step.Tick? {
      TickKeepsInv(cfg, s, step.elapsed);
    } else if step.Arrive? {
      ArriveKeepsInv(cfg, s, step);
    } else if step.LockWork? {
      LockWorkKeepsInv(cfg, s, step.work);
    } else if step.Respond? {
      RespondKeepsInv(cfg, s, step.id);
    } else if step.Evict? {
      EvictKeepsInv(cfg, s, step.id);
    } else {
      PhaseKeepsInv(cfg, s, step.id, Dropped);
    }
  }

  // ----- main results

  /** The candidates of budget k whose eviction was admitted and does not show yet. */
  function Unseen(s: State, k: Key): set<PodId> {
    set id | id in s.requests && s.requests[id].phase.Admitted? && s.requests[id].budget == k
      :: s.requests[id].candidate
  }

  lemma StartInv(cfg: Config, s: State)
    requires cfg.WellFormed() && Start(cfg, s)
    ensures Inv(cfg, s)
  {
  }

  lemma {:induction false} RunKeepsInv(cfg: Config, s: State, steps: seq<Step>)
    requires cfg.WellFormed() && cfg.InTime() && Inv(cfg, s)
    requires Valid(cfg, s, steps) && AllAssumed(cfg, s, steps)
    ensures Inv(cfg, Final(cfg, s, steps))
    decreases |steps|
  {
    if steps != [] {
      StepKeepsInv(cfg, s, steps[0]);
      RunKeepsInv(cfg, Apply(cfg, s, steps[0]), steps[1..]);
    }
  }

  lemma OneUnseen(cfg: Config, s: State, id: Identity)
    requires cfg.WellFormed() && cfg.InTime() && Inv(cfg, s) && IsAdmitted(s, id)
    ensures Unseen(s, s.requests[id].budget) == {s.requests[id].candidate}
  {
    forall q | q in s.requests && s.requests[q].phase.Admitted? && s.requests[q].budget == s.requests[id].budget
      ensures q == id
    {
      if q != id {
        AdmittedIsAlone(cfg, s, id, q);
        AdmittedIsInWindow(cfg, s.lock.now, s.pods, s.lock.requests[q], s.requests[q]);
      }
    }
  }

  lemma AdmittedHasRoom(cfg: Config, s: State, id: Identity)
    requires cfg.WellFormed() && cfg.InTime() && Inv(cfg, s) && IsAdmitted(s, id)
    ensures s.requests[id].budget in cfg.specs
    ensures Room(cfg, s, s.requests[id].budget)
  {
    assert RequestSound(cfg, s.lock.now, s.pods, s.lock.requests[id], s.requests[id]);
    AdmittedIsInWindow(cfg, s.lock.now, s.pods, s.lock.requests[id], s.requests[id]);
    OneUnseen(cfg, s, id);
  }

  /** The healthy pods of budget k that will still be there when every admitted eviction has
      become visible. */
  function Staying(s: State, k: Key): set<PodId> {
    HealthyPods(s.pods, k) - Unseen(s, k)
  }

  ghost predicate Room(cfg: Config, s: State, k: Key)
    requires cfg.WellFormed() && k in cfg.specs
  {
    Meets(cfg, k, |Staying(s, k)|)
  }

  lemma EvictKeepsStaying(cfg: Config, s: State, id: Identity, k: Key)
    requires cfg.WellFormed() && Inv(cfg, s) && IsAdmitted(s, id) && s.requests[id].candidate in s.pods
    ensures Staying(s, k) <= Staying(AfterEvict(s, id), k)
  {
    var s' := AfterEvict(s, id);
    var r := s.requests[id];
    assert RequestSound(cfg, s.lock.now, s.pods, s.lock.requests[id], r);
    assert forall q | q in s'.requests && q != id :: s'.requests[q] == s.requests[q];
    assert Unseen(s', k) <= Unseen(s, k);
    if k == r.budget {
      assert r.candidate in Unseen(s, k);
    } else {
      OtherBudgetsUntouched(s.pods, r.candidate, r.budget, k);
    }
  }

  /** Only an allow response can make fewer pods stay. */
  lemma StepKeepsStaying(cfg: Config, s: State, step: Step, k: Key)
    requires cfg.WellFormed() && Inv(cfg, s) && k in cfg.specs
    requires Enabled(cfg, s, step) && Assumed(cfg, s, step)
    requires !(step.Respond? && s.requests[step.id].budget == k)
    ensures Staying(s, k) <= Staying(Apply(cfg, s, step), k)
  {
    if step.Evict? {
      EvictKeepsStaying(cfg, s, step.id, k);
    } else {
      UnseenOnlyByRespond(cfg, s, step, k);
      StepKeepsHealthy(cfg, s, step, k);
    }
  }

  lemma UnseenOnlyByRespond(cfg: Config, s: State, step: Step, k: Key)
    requires cfg.WellFormed() && Enabled(cfg, s, step)
    requires !(step.Respond? && s.requests[step.id].budget == k)
    ensures Unseen(Apply(cfg, s, step), k) <= Unseen(s, k)
  {
    var s' := Apply(cfg, s, step);
    forall q | q in s'.requests && s'.requests[q].phase.Admitted? && s'.requests[q].budget == k
      ensures q in s.requests && s.requests[q].phase.Admitted? && s.requests[q].budget == k
              && s.requests[q].candidate == s'.requests[q].candidate
    {
      AdmittedOnlyByRespond(cfg, s, step, q);
    }
  }

  lemma AdmittedOnlyByRespond(cfg: Config, s: State, step: Step, q: Identity)
    requires cfg.WellFormed() && Enabled(cfg, s, step) && !(step.Respond? && step.id == q)
    requires q in Apply(cfg, s, step).requests && Apply(cfg, s, step).requests[q].phase.Admitted?
    ensures q in s.requests && s.requests[q] == Apply(cfg, s, step).requests[q]
  {
  }

  lemma LateKeepsStaying(s: State, id: Identity, k: Key)
    requires id in s.requests && !s.requests[id].phase.Admitted?
    ensures Staying(WithPhase(s, id, Late), k) == Staying(s, k)
  {
    var s' := WithPhase(s, id, Late);
    assert forall q | q in s'.requests && q != id :: s'.requests[q] == s.requests[q];
    assert Unseen(s', k) == Unseen(s, k);
  }

  lemma AdmissionHasRoom(cfg: Config, s: State, id: Identity)
    requires cfg.WellFormed() && cfg.InTime() && Inv(cfg, s) && InPhase(s, id, Cleared) && Answer(cfg, s, id).Admitted?
    ensures s.requests[id].budget in cfg.specs
    ensures Room(cfg, WithPhase(s, id, Answer(cfg, s, id)), s.requests[id].budget)
  {
    RespondKeepsInv(cfg, s, id);
    AdmittedHasRoom(cfg, WithPhase(s, id, Answer(cfg, s, id)), id);
  }

  lemma RespondKeepsRoom(cfg: Config, s: State, id: Identity)
    requires cfg.WellFormed() && cfg.InTime() && Inv(cfg, s) && InPhase(s, id, Cleared)
    requires s.requests[id].budget in cfg.specs && Room(cfg, s, s.requests[id].budget)
    ensures Room(cfg, WithPhase(s, id, Answer(cfg, s, id)), s.requests[id].budget)
  {
    if Answer(cfg, s, id).Admitted? {
      AdmissionHasRoom(cfg, s, id);
    } else {
      LateKeepsStaying(s, id, s.requests[id].budget);
    }
  }

  lemma StepKeepsRoom(cfg: Config, s: State, step: Step, k: Key)
    requires cfg.WellFormed() && cfg.InTime() && Inv(cfg, s) && k in cfg.specs && Room(cfg, s, k)
    requires Enabled(cfg, s, step) && Assumed(cfg, s, step)
    ensures Room(cfg, Apply(cfg, s, step), k)
  {
    if step.Respond? && s.requests[step.id].budget == k {
      RespondKeepsRoom(cfg, s, step.id);
    } else {
      StepKeepsStaying(cfg, s, step, k);
      MoreIsEnough(cfg, k, Staying(s, k), Staying(Apply(cfg, s, step), k));
    }
  }

  lemma {:induction false} RunKeepsRoom(cfg: Config, s: State, steps: seq<Step>, k: Key)
    requires cfg.WellFormed() && cfg.InTime() && Inv(cfg, s) && k in cfg.specs && Room(cfg, s, k)
    requires Valid(cfg, s, steps) && AllAssumed(cfg, s, steps)
    ensures Room(cfg, Final(cfg, s, steps), k)
    decreases |steps|
  {
    if steps != [] {
      StepKeepsInv(cfg, s, steps[0]);
      StepKeepsRoom(cfg, s, steps[0], k);
      RunKeepsRoom(cfg, Apply(cfg, s, steps[0]), steps[1..], k);
    }
  }

  /** Every budget is met, all admitted evictions taken away. */
  ghost predicate AllMet(cfg: Config, s: State)
    requires cfg.WellFormed()
  {
    forall k | k in cfg.specs :: Room(cfg, s, k)
  }

  /** Whole-run budget safety: when every budget is met at the start, every budget is met in
      every state of every run, all admitted evictions taken away, for all budgets at once. */
  lemma {:induction false} BudgetsAlwaysMet(cfg: Config, s: State, steps: seq<Step>)
    requires cfg.WellFormed() && cfg.InTime() && Start(cfg, s) && AllMet(cfg, s)
    requires Valid(cfg, s, steps) && AllAssumed(cfg, s, steps)
    ensures AllMet(cfg, Final(cfg, s, steps))
  {
    StartInv(cfg, s);
    forall k | k in cfg.specs
      ensures Room(cfg, Final(cfg, s, steps), k)
    {
      RunKeepsRoom(cfg, s, steps, k);
    }
  }

  /** The same per eviction, whatever the pods were like at the start: an eviction that takes
      effect leaves the budget of its pod met, all admitted evictions taken away. */
  lemma {:induction false} EvictionLeavesBudgetMet(cfg: Config, s: State, steps: seq<Step>, id: Identity)
    requires cfg.WellFormed() && cfg.InTime() && Start(cfg, s)
    requires Valid(cfg, s, steps) && AllAssumed(cfg, s, steps)
    requires Enabled(cfg, Final(cfg, s, steps), Evict(id))
    ensures
      var f := Final(cfg, s, steps);
      var f' := Apply(cfg, f, Evict(id));
      var k := f.requests[id].budget;
      k in cfg.specs && Room(cfg, f', k)
  {
    StartInv(cfg, s);
    RunKeepsInv(cfg, s, steps);
    var f := Final(cfg, s, steps);
    AdmittedHasRoom(cfg, f, id);
    StepKeepsRoom(cfg, f, Evict(id), f.requests[id].budget);
  }

  /** Collecting cluster by cluster never counts too many: within the lease duration the lists
      read so far add up to at most the pods that are healthy everywhere now. */
  lemma CollectedAtMostHealthy(cfg: Config, s: State, steps: seq<Step>, id: Identity)
    requires cfg.WellFormed() && cfg.InTime() && Start(cfg, s)
    requires Valid(cfg, s, steps) && AllAssumed(cfg, s, steps)
    requires id in Final(cfg, s, steps).requests && id in Final(cfg, s, steps).lock.requests
    requires
      var f := Final(cfg, s, steps);
      f.requests[id].phase.Collecting? && InWindow(cfg, f.lock.now, f.lock.requests[id])
    ensures
      var f := Final(cfg, s, steps);
      Sum(Sizes(Lists(f.requests[id].counted))) <= |HealthyPods(f.pods, f.requests[id].budget)|
  {
    StartInv(cfg, s);
    RunKeepsInv(cfg, s, steps);
    var f := Final(cfg, s, steps);
    assert RequestSound(cfg, f.lock.now, f.pods, f.lock.requests[id], f.requests[id]);
    LP.DistinctWhileGranted(cfg.Window(), f.lock, id);
    ListsAddUp(f.pods, f.lock.requests[id], f.requests[id]);
    SubsetSize(Union(Lists(f.requests[id].counted)), HealthyPods(f.pods, f.requests[id].budget));
  }
}
