/** Collecting cluster by cluster while the pods stay as they are: as good as a snapshot. */
module QuietCollection {
  import opened Int32
  import opened Leases
  import opened Sums
  import opened Budget
  import opened BudgetLaws
  import LP = LockProtocol
  import opened Admission

  lemma PartsMakeAll(cfg: Config, pods: map<PodId, Pod>, k: Key, clusters: seq<Cluster>, lists: seq<set<PodId>>)
    requires Members(clusters) == cfg.clusters && |lists| == |clusters|
    requires forall p | p in pods :: pods[p].cluster in cfg.clusters
    requires forall i | 0 <= i < |lists| :: lists[i] == HealthyAt(pods, k, clusters[i])
    ensures Union(lists) == HealthyPods(pods, k)
  {
    forall p
      ensures p in Union(lists) <==> p in HealthyPods(pods, k)
    {
      UnionMember(lists, p);
      if p in HealthyPods(pods, k) {
        assert pods[p].cluster in Members(clusters);
        var i :| 0 <= i < |clusters| && clusters[i] == pods[p].cluster;
        assert p in lists[i];
      }
    }
  }

  lemma UnchangedListsAreExact(cfg: Config, pods: map<PodId, Pod>, l: LP.Request, r: Request)
    requires Distinct(l.clusters) && Members(l.clusters) == cfg.clusters && |r.counted| == |l.clusters|
    requires forall p | p in pods :: pods[p].cluster in cfg.clusters
    requires forall i | 0 <= i < |r.counted| :: r.counted[i] == Some(HealthyAt(pods, r.budget, l.clusters[i]))
    ensures Sum(Sizes(Lists(r.counted))) == |HealthyPods(pods, r.budget)|
  {
    var lists := Lists(r.counted);
    forall i, j | 0 <= i < j < |lists|
      ensures lists[i] !! lists[j]
    {
      HealthyAtParts(pods, r.budget, l.clusters[i], l.clusters[j]);
    }
    DisjointUnionSize(lists);
    PartsMakeAll(cfg, pods, r.budget, l.clusters, lists);
  }

  // ----- counting a list

  /** The pods of the budget in one cluster, each once and in whatever order. */
  predicate IsListing(pods: map<PodId, Pod>, k: Key, c: Cluster, list: seq<PodId>) {
    && Distinct(list) && (forall p | p in list :: p in pods && k in pods[p].budgets && pods[p].cluster == c)
    && (forall p | p in pods && k in pods[p].budgets && pods[p].cluster == c :: p in list)
  }

  function StatusesOf(pods: map<PodId, Pod>, list: seq<PodId>): seq<PodStatus>
    requires forall p | p in list :: p in pods
  {
    seq(|list|, i requires 0 <= i < |list| => PodStatus(pods[list[i]].ready, pods[list[i]].terminating))
  }

  /** Those of the listed pods that count. */
  function CountedOf(pods: map<PodId, Pod>, k: Key, list: seq<PodId>): set<PodId>
    requires forall p | p in list :: p in pods
  {
    set p | p in list && Admission.Counts(pods[p], k)
  }

  lemma CountedStep(pods: map<PodId, Pod>, k: Key, list: seq<PodId>)
    requires list != [] && Distinct(list) && forall p | p in list :: p in pods
    ensures
      var front, last := list[..|list| - 1], list[|list| - 1];
      && (forall p | p in front :: p in list) && last !in CountedOf(pods, k, front)
      && CountedOf(pods, k, list) == CountedOf(pods, k, front) + (if Admission.Counts(pods[last], k) then {last} else {})
  {
    var n := |list| - 1;
    assert list == list[..n] + [list[n]];
  }

  lemma {:induction false} CountsListed(pods: map<PodId, Pod>, k: Key, list: seq<PodId>)
    requires Distinct(list) && forall p | p in list :: p in pods && k in pods[p].budgets
    ensures CountHealthy(StatusesOf(pods, list)) == |CountedOf(pods, k, list)|
  {
    if list != [] {
      CountedStep(pods, k, list);
      StatusStep(pods, k, list);
      CountsListed(pods, k, list[..|list| - 1]);
    }
  }

  lemma StatusStep(pods: map<PodId, Pod>, k: Key, list: seq<PodId>)
    requires list != [] && forall p | p in list :: p in pods && k in pods[p].budgets
    ensures
      var front, last := list[..|list| - 1], list[|list| - 1];
      && (forall p | p in front :: p in list)
      && CountHealthy(StatusesOf(pods, list)) ==
         CountHealthy(StatusesOf(pods, front)) + (if Admission.Counts(pods[last], k) then 1 else 0)
  {
    var n := |list| - 1;
    assert StatusesOf(pods, list)[..n] == StatusesOf(pods, list[..n]);
  }

  /** What a handler of the run model counts in a cluster is what the counting loop counts on any
      listing of the pods there. */
  lemma ListIsCounted(pods: map<PodId, Pod>, k: Key, c: Cluster, list: seq<PodId>)
    requires IsListing(pods, k, c, list)
    ensures CountHealthy(StatusesOf(pods, list)) == |HealthyAt(pods, k, c)|
  {
    CountsListed(pods, k, list);
    assert HealthyAt(pods, k, c) == CountedOf(pods, k, list);
  }

  // ----- over a run

  /** The step is none of those that change pods. */
  predicate LeavesPods(step: Step) {
    !IsPodStep(step) && !step.Evict?
  }

  predicate AllLeavePods(steps: seq<Step>) {
    forall step | step in steps :: LeavesPods(step)
  }

  /** Whatever the request has read is still so. */
  predicate UpToDate(s: State, id: Identity) {
    && id in s.requests && id in s.lock.requests
    && var l, r := s.lock.requests[id], s.requests[id];
    && |r.counted| == |l.clusters|
    && forall i | 0 <= i < |r.counted| && r.counted[i].Some? ::
         r.counted[i].value == HealthyAt(s.pods, r.budget, l.clusters[i])
  }

  lemma CollectKeepsUpToDate(s: State, id: Identity, i: nat, q: Identity)
    requires UpToDate(s, id) && q in s.requests && q in s.lock.requests
    requires i < |s.requests[q].counted| == |s.lock.requests[q].clusters|
    ensures UpToDate(AfterCollect(s, q, i), id)
  {
  }

  /** No other step touches what a request has read. */
  lemma OtherStepsKeepReads(cfg: Config, s: State, step: Step, id: Identity)
    requires cfg.WellFormed() && Enabled(cfg, s, step) && LeavesPods(step) && !step.LockWork? && !step.Collect?
    requires id in s.requests && id in s.lock.requests
    ensures
      var s' := Apply(cfg, s, step);
      && s'.pods == s.pods && id in s'.requests && id in s'.lock.requests
      && s'.requests[id].counted == s.requests[id].counted && s'.requests[id].budget == s.requests[id].budget
      && s'.lock.requests[id].clusters == s.lock.requests[id].clusters
  {
    OtherStepsKeepPods(cfg, s, step);
    OtherStepsKeepLists(cfg, s, step, id);
    OtherStepsKeepClusters(cfg, s, step, id);
  }

  lemma OtherStepsKeepLists(cfg: Config, s: State, step: Step, id: Identity)
    requires cfg.WellFormed() && Enabled(cfg, s, step) && !step.Collect? && id in s.requests
    ensures SameLists(s, Apply(cfg, s, step), id)
  {
    if IsHandlerStep(step) {
      HandlerKeepsLists(cfg, s, step, id);
    } else {
      OthersKeepLists(cfg, s, step, id);
    }
  }

  predicate SameLists(s: State, s': State, id: Identity) {
    && id in s.requests && id in s'.requests
    && s'.requests[id].counted == s.requests[id].counted && s'.requests[id].budget == s.requests[id].budget
  }

  lemma PhaseKeepsLists(s: State, q: Identity, phase: Phase, id: Identity)
    requires id in s.requests && q in s.requests
    ensures SameLists(s, WithPhase(s, q, phase), id)
  {
  }

  /** Denials and positive answers only change the phase of a request. */
  lemma HandlerKeepsLists(cfg: Config, s: State, step: Step, id: Identity)
    requires cfg.WellFormed() && Enabled(cfg, s, step) && IsHandlerStep(step) && !step.Collect? && id in s.requests
    ensures SameLists(s, Apply(cfg, s, step), id)
  {
    PhaseKeepsLists(s, step.id, Collecting, id);
    PhaseKeepsLists(s, step.id, Cleared, id);
    PhaseKeepsLists(s, step.id, Denied, id);
    HandlerSetsPhase(cfg, s, step);
  }

  lemma HandlerSetsPhase(cfg: Config, s: State, step: Step)
    requires cfg.WellFormed() && Enabled(cfg, s, step) && IsHandlerStep(step) && !step.Collect?
    ensures
      var asks := Apply(cfg, s, step).requests;
      || asks == WithPhase(s, step.id, Collecting).requests
      || asks == WithPhase(s, step.id, Cleared).requests
      || asks == WithPhase(s, step.id, Denied).requests
  {
  }

  lemma OthersKeepLists(cfg: Config, s: State, step: Step, id: Identity)
    requires cfg.WellFormed() && Enabled(cfg, s, step) && !IsHandlerStep(step) && id in s.requests
    ensures SameLists(s, Apply(cfg, s, step), id)
  {
  }

  lemma OtherStepsKeepClusters(cfg: Config, s: State, step: Step, id: Identity)
    requires cfg.WellFormed() && Enabled(cfg, s, step) && id in s.lock.requests
    ensures
      var s' := Apply(cfg, s, step);
      id in s'.lock.requests && s'.lock.requests[id].clusters == s.lock.requests[id].clusters
  {
    LockSide(cfg, s, step);
    if Apply(cfg, s, step).lock != s.lock {
      LockStepKeepsClusters(cfg.duration, s.lock, LockStepOf(cfg, step), id);
    }
  }

  lemma LockStepKeepsClusters(duration: nat, s: LP.State, work: LP.Step, id: Identity)
    requires LP.Enabled(s, work) && id in s.requests
    ensures
      var s' := LP.Apply(duration, s, work);
      id in s'.requests && s'.requests[id].clusters == s.requests[id].clusters
  {
  }

  lemma StepKeepsUpToDate(cfg: Config, s: State, step: Step, id: Identity)
    requires cfg.WellFormed() && Enabled(cfg, s, step) && LeavesPods(step) && UpToDate(s, id)
    ensures UpToDate(Apply(cfg, s, step), id)
  {
    if step.LockWork? {
      TaskWorkKeepsCalls(cfg.duration, s.lock, step.work);
    } else if step.Collect? {
      CollectKeepsUpToDate(s, id, step.i, step.id);
    } else {
      OtherStepsKeepReads(cfg, s, step, id);
    }
  }

  lemma {:induction false} RunKeepsUpToDate(cfg: Config, s: State, steps: seq<Step>, id: Identity)
    requires cfg.WellFormed() && Valid(cfg, s, steps) && AllLeavePods(steps) && UpToDate(s, id)
    ensures UpToDate(Final(cfg, s, steps), id)
    decreases |steps|
  {
    if steps != [] {
      assert steps[0] in steps;
      StepKeepsUpToDate(cfg, s, steps[0], id);
      RunKeepsUpToDate(cfg, Apply(cfg, s, steps[0]), steps[1..], id);
    }
  }

  /** The request stands before its verdict, within its window, and has read every list. */
  predicate HasCollected(cfg: Config, s: State, id: Identity) {
    && InPhase(s, id, Collecting) && InWindow(cfg, s.lock.now, s.lock.requests[id])
    && forall i | 0 <= i < |s.requests[id].counted| :: s.requests[id].counted[i].Some?
  }

  /** Request id has read nothing yet when the steps in question begin. */
  predicate StartsCollecting(s: State, id: Identity) {
    InPhase(s, id, Collecting) && forall i | 0 <= i < |s.requests[id].counted| :: s.requests[id].counted[i].None?
  }

  /** All clusters of the mesh are covered, each once. */
  lemma CoversMesh(cfg: Config, f: State, id: Identity)
    requires cfg.WellFormed() && Inv(cfg, f) && HasCollected(cfg, f, id)
    ensures
      var l, r := f.lock.requests[id], f.requests[id];
      && r.budget in cfg.specs && Distinct(l.clusters) && Members(l.clusters) == cfg.clusters
      && (forall c | c in l.clusters :: c in cfg.clusters)
      && |r.counted| == |l.clusters|
  {
    assert RequestSound(cfg, f.lock.now, f.pods, f.lock.requests[id], f.requests[id]);
    LP.DistinctWhileGranted(cfg.Window(), f.lock, id);
    ExpectedIsTotal(cfg, f.requests[id].budget, f.lock.requests[id].clusters);
  }

  /** The lists add up to exactly the healthy pods of now, and the verdict on them is the one on
      these pods and on the scale of the whole mesh. */
  ghost predicate AsSnapshot(cfg: Config, pods: map<PodId, Pod>, l: LP.Request, r: Request)
    requires cfg.WellFormed()
  {
    && r.budget in cfg.specs && (forall c | c in l.clusters :: c in cfg.clusters)
    && Sum(Sizes(Lists(r.counted))) == |HealthyPods(pods, r.budget)|
    && VerdictOf(cfg, r.budget, l.clusters, r) ==
       DisruptionAllowed(Some(cfg.specs[r.budget]), r.snapshotReady, Wrap(SumMap(cfg.scale[r.budget])),
                         Wrap(|HealthyPods(pods, r.budget)|))
  }

  lemma VerdictOfSnapshot(cfg: Config, pods: map<PodId, Pod>, l: LP.Request, r: Request)
    requires cfg.WellFormed() && r.budget in cfg.specs
    requires Distinct(l.clusters) && Members(l.clusters) == cfg.clusters && |r.counted| == |l.clusters|
    requires forall p | p in pods :: pods[p].cluster in cfg.clusters
    requires forall i | 0 <= i < |r.counted| :: r.counted[i] == Some(HealthyAt(pods, r.budget, l.clusters[i]))
    ensures AsSnapshot(cfg, pods, l, r)
  {
    UnchangedListsAreExact(cfg, pods, l, r);
    ExpectedIsTotal(cfg, r.budget, l.clusters);
  }

  lemma CollectedIsSnapshot(cfg: Config, f: State, id: Identity)
    requires cfg.WellFormed() && Inv(cfg, f) && HasCollected(cfg, f, id) && UpToDate(f, id)
    requires forall p | p in f.pods :: f.pods[p].cluster in cfg.clusters
    ensures AsSnapshot(cfg, f.pods, f.lock.requests[id], f.requests[id])
  {
    var l, r := f.lock.requests[id], f.requests[id];
    CoversMesh(cfg, f, id);
    forall i | 0 <= i < |r.counted|
      ensures r.counted[i] == Some(HealthyAt(f.pods, r.budget, l.clusters[i]))
    {
      assert r.counted[i].Some?;
    }
    VerdictOfSnapshot(cfg, f.pods, l, r);
  }

  /** A run up to the beginning of a collection, and steps that leave the pods alone after it. */
  ghost predicate Quietly(cfg: Config, s: State, before: seq<Step>, during: seq<Step>, id: Identity) {
    && cfg.WellFormed() && cfg.InTime() && Start(cfg, s)
    && Valid(cfg, s, before) && AllAssumed(cfg, s, before)
    && var m := Final(cfg, s, before);
    && StartsCollecting(m, id) && Valid(cfg, m, during) && AllAssumed(cfg, m, during) && AllLeavePods(during)
  }

  lemma {:induction false} QuietlyUpToDate(cfg: Config, s: State, before: seq<Step>, during: seq<Step>, id: Identity)
    requires Quietly(cfg, s, before, during, id)
    ensures
      var f := Final(cfg, Final(cfg, s, before), during);
      Inv(cfg, f) && UpToDate(f, id)
  {
    var m := Final(cfg, s, before);
    StartInv(cfg, s);
    RunKeepsInv(cfg, s, before);
    assert RequestSound(cfg, m.lock.now, m.pods, m.lock.requests[id], m.requests[id]);
    RunKeepsInv(cfg, m, during);
    RunKeepsUpToDate(cfg, m, during, id);
  }

  /** After any run up to the beginning of the collection, let nothing change the pods until every
      list is read, whatever the other requests do: then the counts are exactly the healthy pods
      of the mesh, and the verdict is the one that a snapshot of all clusters would get. */
  lemma {:induction false} QuietCollectionIsExact(cfg: Config, s: State, before: seq<Step>, during: seq<Step>,
                                                  id: Identity)
    requires Quietly(cfg, s, before, during, id)
    requires
      var f := Final(cfg, Final(cfg, s, before), during);
      HasCollected(cfg, f, id) && forall p | p in f.pods :: f.pods[p].cluster in cfg.clusters
    ensures
      var f := Final(cfg, Final(cfg, s, before), during);
      AsSnapshot(cfg, f.pods, f.lock.requests[id], f.requests[id])
  {
    var f := Final(cfg, Final(cfg, s, before), during);
    QuietlyUpToDate(cfg, s, before, during, id);
    CollectedIsSnapshot(cfg, f, id);
  }
}
