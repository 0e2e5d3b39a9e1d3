/** The distributed count against a central one: the clusters of the mesh merged into a single
    cluster that holds all their objects and pods. */
module Central {
  import opened Int32
  import opened Sums
  import opened Budget
  import opened BudgetLaws
  import opened Scale
  import C = Collection

  // ----- the merged cluster

  function MergeApis(a: Api, b: Api): Api {
    Api(a.replicationControllers + b.replicationControllers, a.replicaSets + b.replicaSets,
        a.statefulSets + b.statefulSets, a.deployments + b.deployments, a.scales + b.scales)
  }

  const EMPTY: Api := Api(map[], map[], map[], map[], map[])

  function Merge(views: seq<C.View>): C.View {
    if views == [] then C.View(EMPTY, [], [])
    else
      var front, last := Merge(views[..|views| - 1]), views[|views| - 1];
      C.View(MergeApis(front.api, last.api), front.pods + last.pods, front.statuses + last.statuses)
  }

  /** All objects and pods of the view are in namespaces of this cluster. */
  predicate LivesIn(view: C.View, cluster: nat) {
    && (forall k | k in view.api.replicationControllers :: k.namespace.cluster == cluster)
    && (forall k | k in view.api.replicaSets :: k.namespace.cluster == cluster)
    && (forall k | k in view.api.statefulSets :: k.namespace.cluster == cluster)
    && (forall k | k in view.api.deployments :: k.namespace.cluster == cluster)
    && (forall k | k in view.api.scales :: k.key.namespace.cluster == cluster)
    && (forall p | p in view.pods :: p.namespace.cluster == cluster)
  }

  /** The views of different clusters. */
  predicate Mesh(clusters: seq<nat>, views: seq<C.View>) {
    |clusters| == |views| && Distinct(clusters) && forall i | 0 <= i < |views| :: LivesIn(views[i], clusters[i])
  }

  lemma DropLastView(clusters: seq<nat>, views: seq<C.View>)
    requires Mesh(clusters, views) && views != []
    ensures Mesh(clusters[..|views| - 1], views[..|views| - 1])
    ensures clusters[|views| - 1] !in clusters[..|views| - 1]
  {
  }

  // ----- resolving a pod looks at one namespace only

  /** The two agree on all workloads of the namespace. */
  ghost predicate SameWorkloads(a: map<Key, Workload>, b: map<Key, Workload>, ns: Namespace) {
    forall k: Key | k.namespace == ns :: (k in a <==> k in b) && (k in a ==> a[k] == b[k])
  }

  ghost predicate SameScales(a: map<ScaleKey, ScaleAnswer>, b: map<ScaleKey, ScaleAnswer>, ns: Namespace) {
    forall k: ScaleKey | k.key.namespace == ns :: (k in a <==> k in b) && (k in a ==> a[k] == b[k])
  }

  ghost predicate SameIn(a: Api, b: Api, ns: Namespace) {
    && SameWorkloads(a.replicationControllers, b.replicationControllers, ns)
    && SameWorkloads(a.replicaSets, b.replicaSets, ns)
    && SameWorkloads(a.statefulSets, b.statefulSets, ns)
    && SameWorkloads(a.deployments, b.deployments, ns)
    && SameScales(a.scales, b.scales, ns)
  }

  lemma {:induction false} NamedSame(a: map<Key, Workload>, b: map<Key, Workload>, ref: OwnerRef, ns: Namespace)
    requires SameWorkloads(a, b, ns)
    ensures Named(a, ref, ns) == Named(b, ref, ns)
  {
    assert Key(ns, ref.name).namespace == ns;
  }

  lemma {:induction false} FindSame(f: Finder, a: Api, b: Api, ref: OwnerRef, ns: Namespace)
    requires SameIn(a, b, ns)
    ensures Find(f, a, ref, ns) == Find(f, b, ref, ns)
  {
    NamedSame(a.replicationControllers, b.replicationControllers, ref, ns);
    NamedSame(a.replicaSets, b.replicaSets, ref, ns);
    NamedSame(a.statefulSets, b.statefulSets, ref, ns);
    if f == Deployments && Named(a.replicaSets, ref, ns).Some? {
      var owner := ControllerOf(Named(a.replicaSets, ref, ns).value.owners);
      if owner.Some? {
        NamedSame(a.deployments, b.deployments, owner.value, ns);
      }
    }
    assert ScaleKey(ref.apiVersion, ref.kind, Key(ns, ref.name)).key.namespace == ns;
  }

  lemma {:induction false} ResolveSame(order: seq<Finder>, a: Api, b: Api, ref: OwnerRef, ns: Namespace)
    requires SameIn(a, b, ns)
    ensures Resolve(order, a, ref, ns) == Resolve(order, b, ref, ns)
  {
    if order != [] {
      FindSame(order[0], a, b, ref, ns);
      ResolveSame(order[1..], a, b, ref, ns);
    }
  }

  /** Merging in a cluster that the namespace is not in changes nothing there. */
  lemma MergeOther(a: Api, view: C.View, cluster: nat, ns: Namespace)
    requires LivesIn(view, cluster) && cluster != ns.cluster
    ensures SameIn(MergeApis(a, view.api), a, ns)
  {
  }

  /** Merging in the cluster that the namespace is in brings all of its objects. */
  lemma MergeOwn(a: Api, b: Api, ns: Namespace)
    requires SameIn(a, EMPTY, ns)
    ensures SameIn(MergeApis(a, b), b, ns)
  {
  }

  lemma SameInBoth(a: Api, b: Api, c: Api, ns: Namespace)
    requires SameIn(a, b, ns) && SameIn(b, c, ns)
    ensures SameIn(a, c, ns)
  {
  }

  lemma MergeStep(views: seq<C.View>)
    requires views != []
    ensures Merge(views).api == MergeApis(Merge(views[..|views| - 1]).api, views[|views| - 1].api)
  {
  }

  /** The merged cluster has nothing in the namespaces of other clusters. */
  lemma {:induction false} MergedIsMissing(clusters: seq<nat>, views: seq<C.View>, ns: Namespace)
    requires Mesh(clusters, views) && ns.cluster !in clusters
    ensures SameIn(Merge(views).api, EMPTY, ns)
  {
    if views != [] {
      var n := |views| - 1;
      DropLastView(clusters, views);
      MergedIsMissing(clusters[..n], views[..n], ns);
      MergeOther(Merge(views[..n]).api, views[n], clusters[n], ns);
      SameInBoth(Merge(views).api, Merge(views[..n]).api, EMPTY, ns);
    }
  }

  /** The objects of the merged cluster in a namespace are those of the namespace's own cluster. */
  lemma {:induction false} MergedIsOwn(clusters: seq<nat>, views: seq<C.View>, ns: Namespace, i: nat)
    requires Mesh(clusters, views) && i < |views| && clusters[i] == ns.cluster
    ensures SameIn(Merge(views).api, views[i].api, ns)
  {
    var n := |views| - 1;
    DropLastView(clusters, views);
    MergeStep(views);
    if i < n {
      MergedIsOwn(clusters[..n], views[..n], ns, i);
      assert LivesIn(views[n], clusters[n]) && clusters[n] != clusters[i];
      MergeOther(Merge(views[..n]).api, views[n], clusters[n], ns);
      SameInBoth(Merge(views).api, Merge(views[..n]).api, views[i].api, ns);
    } else {
      MergedIsMissing(clusters[..n], views[..n], ns);
      MergeOwn(Merge(views[..n]).api, views[n].api, ns);
    }
  }

  lemma {:induction false} ResolvePodMerged(clusters: seq<nat>, views: seq<C.View>, i: nat, p: OwnedPod)
    requires Mesh(clusters, views) && i < |views| && p in views[i].pods && Managed(p)
    ensures ResolvePod(Merge(views).api, p) == ResolvePod(views[i].api, p)
  {
    MergedIsOwn(clusters, views, p.namespace, i);
    ResolveSame(FINDERS, Merge(views).api, views[i].api, RefOf(p), p.namespace);
  }

  lemma {:induction false} MergedPods(views: seq<C.View>, p: OwnedPod)
    ensures p in Merge(views).pods <==> exists i :: 0 <= i < |views| && p in views[i].pods
  {
    if views != [] {
      var n := |views| - 1;
      MergedPods(views[..n], p);
      if i :| 0 <= i < |views| && p in views[i].pods {
        assert i < n ==> p in views[..n][i].pods;
      }
      if p in Merge(views[..n]).pods {
        var i :| 0 <= i < n && p in views[..n][i].pods;
        assert p in views[i].pods;
      }
    }
  }

  lemma {:induction false} HomeOf(views: seq<C.View>, p: OwnedPod) returns (i: nat)
    requires p in Merge(views).pods
    ensures i < |views| && p in views[i].pods
  {
    MergedPods(views, p);
    i :| 0 <= i < |views| && p in views[i].pods;
  }

  lemma {:induction false} AllResolveMerged(clusters: seq<nat>, views: seq<C.View>)
    requires Mesh(clusters, views)
    ensures AllResolve(Merge(views).api, Merge(views).pods) <==>
            forall i | 0 <= i < |views| :: AllResolve(views[i].api, views[i].pods)
  {
    var m := Merge(views);
    if AllResolve(m.api, m.pods) {
      forall i, p | 0 <= i < |views| && p in views[i].pods && Managed(p)
        ensures Resolves(views[i].api, p)
      {
        MergedPods(views, p);
        ResolvePodMerged(clusters, views, i, p);
      }
    }
    if forall i | 0 <= i < |views| :: AllResolve(views[i].api, views[i].pods) {
      forall p | p in m.pods && Managed(p)
        ensures Resolves(m.api, p)
      {
        var i := HomeOf(views, p);
        ResolvePodMerged(clusters, views, i, p);
      }
    }
  }

  // ----- UIDs belong to one cluster

  /** The UID belongs to the owner of a pod of the view, or to the controller it resolves to. */
  predicate Uses(view: C.View, u: Uid) {
    exists p | p in view.pods && Managed(p) ::
      RefOf(p).uid == u || (Resolves(view.api, p) && ControllerFor(view.api, p).uid == u)
  }

  /** No two clusters share a UID. */
  ghost predicate Apart(views: seq<C.View>) {
    forall i, j, u | 0 <= i < |views| && 0 <= j < |views| && Uses(views[i], u) && Uses(views[j], u) :: i == j
  }

  lemma {:induction false} UidsDiffer(views: seq<C.View>, i: nat, j: nat, p: OwnedPod, q: OwnedPod)
    requires Apart(views) && i < |views| && j < |views| && i != j
    requires p in views[i].pods && q in views[j].pods && Managed(p) && Managed(q) && Resolves(views[i].api, p)
    ensures
      var u := ControllerFor(views[i].api, p).uid;
      RefOf(q).uid != u && (Resolves(views[j].api, q) ==> ControllerFor(views[j].api, q).uid != u)
  {
    var u := ControllerFor(views[i].api, p).uid;
    assert Uses(views[i], u) && !Uses(views[j], u);
  }

  lemma {:induction false} AgreeMerged(clusters: seq<nat>, views: seq<C.View>, p: OwnedPod, q: OwnedPod)
    requires Mesh(clusters, views) && Apart(views)
    requires forall i | 0 <= i < |views| :: Coherent(views[i].api, views[i].pods)
    requires p in Merge(views).pods && q in Merge(views).pods && Managed(p) && Managed(q)
    requires Resolves(Merge(views).api, p)
    ensures Agree(Merge(views).api, p, q)
  {
    var i := HomeOf(views, p);
    var j := HomeOf(views, q);
    ResolvePodMerged(clusters, views, i, p);
    ResolvePodMerged(clusters, views, j, q);
    if i == j {
      assert Coherent(views[i].api, views[i].pods);
      assert Agree(views[i].api, p, q);
    } else {
      UidsDiffer(views, i, j, p, q);
    }
  }

  lemma {:induction false} CoherentMerged(clusters: seq<nat>, views: seq<C.View>)
    requires Mesh(clusters, views) && Apart(views)
    requires forall i | 0 <= i < |views| :: Coherent(views[i].api, views[i].pods)
    ensures Coherent(Merge(views).api, Merge(views).pods)
  {
    var m := Merge(views);
    forall p, q | p in m.pods && q in m.pods && Managed(p) && Managed(q) && Resolves(m.api, p)
      ensures Agree(m.api, p, q)
    {
      AgreeMerged(clusters, views, p, q);
    }
  }

  // ----- the tally of the merged cluster

  predicate TalliesAll(views: seq<C.View>, scales: seq<map<Uid, int>>) {
    |scales| == |views| && forall i | 0 <= i < |views| :: Tallies(views[i].api, views[i].pods, scales[i])
  }

  /** All controllers in one tally. */
  function AllScales(scales: seq<map<Uid, int>>): map<Uid, int> {
    if scales == [] then map[] else AllScales(scales[..|scales| - 1]) + scales[|scales| - 1]
  }

  predicate Separate(scales: seq<map<Uid, int>>) {
    forall i, j | 0 <= i < j < |scales| :: scales[i].Keys !! scales[j].Keys
  }

  lemma {:induction false} TalliesAreSeparate(views: seq<C.View>, scales: seq<map<Uid, int>>)
    requires Apart(views) && TalliesAll(views, scales)
    ensures Separate(scales)
  {
    forall i, j | 0 <= i < j < |scales|
      ensures scales[i].Keys !! scales[j].Keys
    {
      forall u | u in scales[i]
        ensures u !in scales[j]
      {
        if u in scales[j] {
          assert Uses(views[i], u) && Uses(views[j], u);
        }
      }
    }
  }

  lemma {:induction false} InAllScales(scales: seq<map<Uid, int>>, u: Uid)
    requires Separate(scales)
    ensures u in AllScales(scales) <==> exists i :: 0 <= i < |scales| && u in scales[i]
    ensures forall i | 0 <= i < |scales| && u in scales[i] :: AllScales(scales)[u] == scales[i][u]
  {
    if scales != [] {
      var n := |scales| - 1;
      var front, last := scales[..n], scales[n];
      InAllScales(front, u);
      if u in AllScales(front) {
        var i :| 0 <= i < n && u in front[i];
        assert u in scales[i] && scales[i].Keys !! last.Keys;
      }
      forall i | 0 <= i < |scales| && u in scales[i]
        ensures u in AllScales(scales) && AllScales(scales)[u] == scales[i][u]
      {
        if i < n {
          assert u in front[i] && scales[i].Keys !! last.Keys;
        }
      }
    }
  }

  /** Tallying the merged cluster gives all the clusters' tallies together. */
  lemma {:induction false} TalliesMerged(clusters: seq<nat>, views: seq<C.View>, scales: seq<map<Uid, int>>)
    requires Mesh(clusters, views) && Apart(views) && TalliesAll(views, scales)
    ensures Tallies(Merge(views).api, Merge(views).pods, AllScales(scales))
  {
    var m, all := Merge(views), AllScales(scales);
    TalliesAreSeparate(views, scales);
    forall p | p in m.pods && Managed(p)
      ensures Resolves(m.api, p) && ControllerFor(m.api, p).uid in all
              && all[ControllerFor(m.api, p).uid] == ControllerFor(m.api, p).scale
    {
      var i := HomeOf(views, p);
      ResolvePodMerged(clusters, views, i, p);
      assert Tallies(views[i].api, views[i].pods, scales[i]);
      InAllScales(scales, ControllerFor(m.api, p).uid);
    }
    forall u | u in all
      ensures exists p | p in m.pods && Managed(p) :: Resolves(m.api, p) && ControllerFor(m.api, p).uid == u
    {
      var p := TalliedInMerged(clusters, views, scales, u);
    }
  }

  lemma {:induction false} TalliedInMerged(clusters: seq<nat>, views: seq<C.View>, scales: seq<map<Uid, int>>, u: Uid)
    returns (p: OwnedPod)
    requires Mesh(clusters, views) && Separate(scales) && TalliesAll(views, scales) && u in AllScales(scales)
    ensures p in Merge(views).pods && Managed(p) && Resolves(Merge(views).api, p)
    ensures ControllerFor(Merge(views).api, p).uid == u
  {
    var i := TalliedWhere(views, scales, u);
    p := TalliedBy(views[i], scales[i], u);
    MergedPods(views, p);
    ResolvePodMerged(clusters, views, i, p);
  }

  lemma {:induction false} TalliedWhere(views: seq<C.View>, scales: seq<map<Uid, int>>, u: Uid) returns (i: nat)
    requires Separate(scales) && TalliesAll(views, scales) && u in AllScales(scales)
    ensures i < |views| && u in scales[i] && Tallies(views[i].api, views[i].pods, scales[i])
  {
    InAllScales(scales, u);
    i :| 0 <= i < |scales| && u in scales[i];
  }

  lemma {:induction false} TalliedBy(view: C.View, scales: map<Uid, int>, u: Uid) returns (p: OwnedPod)
    requires Tallies(view.api, view.pods, scales) && u in scales
    ensures p in view.pods && Managed(p) && Resolves(view.api, p) && ControllerFor(view.api, p).uid == u
  {
    p :| p in view.pods && Managed(p) && Resolves(view.api, p) && ControllerFor(view.api, p).uid == u;
  }

  // ----- the sums

  ghost function ScaleSums(scales: seq<map<Uid, int>>): seq<int> {
    seq(|scales|, i requires 0 <= i < |scales| => SumMap(scales[i]))
  }

  lemma {:induction false} AllScalesSum(scales: seq<map<Uid, int>>)
    requires Separate(scales)
    ensures SumMap(AllScales(scales)) == Sum(ScaleSums(scales))
  {
    if scales != [] {
      var n := |scales| - 1;
      var front := AllScales(scales[..n]);
      forall u | u in front
        ensures u !in scales[n]
      {
        InAllScales(scales[..n], u);
        var i :| 0 <= i < n && u in scales[..n][i];
        assert scales[i].Keys !! scales[n].Keys;
      }
      SumUnion(front, scales[n]);
      AllScalesSum(scales[..n]);
      assert ScaleSums(scales)[..n] == ScaleSums(scales[..n]);
    }
  }

  function StatusCounts(views: seq<C.View>): seq<int> {
    seq(|views|, i requires 0 <= i < |views| => CountHealthy(views[i].statuses))
  }

  lemma {:induction false} AllStatusesSum(views: seq<C.View>)
    ensures CountHealthy(Merge(views).statuses) == Sum(StatusCounts(views))
  {
    if views != [] {
      var n := |views| - 1;
      AllStatusesSum(views[..n]);
      CountConcat(Merge(views[..n]).statuses, views[n].statuses);
      assert StatusCounts(views)[..n] == StatusCounts(views[..n]);
    }
  }

  /** Wrapping every summand does not change the wrapped sum. */
  lemma {:induction false} WrapSums(xs: seq<int>, ws: seq<int>)
    requires |xs| == |ws| && forall i | 0 <= i < |xs| :: ws[i] == Wrap(xs[i])
    ensures Wrap(Sum(ws)) == Wrap(Sum(xs))
  {
    if xs != [] {
      var n := |xs| - 1;
      WrapSums(xs[..n], ws[..n]);
      WrapAbsorbs(Sum(xs[..n]), Wrap(xs[n]));
      WrapAbsorbs(Sum(ws[..n]), Wrap(xs[n]));
      WrapAbsorbs(Sum(xs[..n]), xs[n]);
    }
  }

  // ----- the main result

  /** Every cluster has reported its counts, or that it has none. */
  ghost predicate Reported(views: seq<C.View>, results: seq<Result<C.Counts>>) {
    |results| == |views| && forall i | 0 <= i < |views| :: C.CountsOf(views[i], results[i])
  }

  /** The tally behind the counts of a view. */
  ghost function TallyOf(view: C.View): map<Uid, int> {
    if scales: map<Uid, int> :| Tallies(view.api, view.pods, scales) then scales else map[]
  }

  lemma {:induction false} TallyBehind(view: C.View, counts: C.Counts)
    requires C.CountsOf(view, Ok(counts))
    ensures Tallies(view.api, view.pods, TallyOf(view))
    ensures counts.expected == Wrap(SumMap(TallyOf(view)))
  {
    var scales: map<Uid, int> :| Tallies(view.api, view.pods, scales) && counts.expected == Wrap(SumMap(scales));
    TallyIsUnique(view.api, view.pods, view.pods, scales, TallyOf(view));
  }

  ghost function TalliesOf(views: seq<C.View>): seq<map<Uid, int>> {
    seq(|views|, i requires 0 <= i < |views| => TallyOf(views[i]))
  }

  lemma {:induction false} TalliesBehind(views: seq<C.View>, reports: seq<C.Counts>)
    requires |reports| == |views| && forall i | 0 <= i < |views| :: C.CountsOf(views[i], Ok(reports[i]))
    ensures TalliesAll(views, TalliesOf(views))
    ensures forall i | 0 <= i < |views| :: reports[i].expected == Wrap(ScaleSums(TalliesOf(views))[i])
  {
    forall i | 0 <= i < |views|
      ensures Tallies(views[i].api, views[i].pods, TalliesOf(views)[i])
      ensures reports[i].expected == Wrap(SumMap(TalliesOf(views)[i]))
    {
      TallyBehind(views[i], reports[i]);
    }
  }

  lemma {:induction false} ExpectedIsCentral(clusters: seq<nat>, views: seq<C.View>, reports: seq<C.Counts>, central: C.Counts)
    requires Mesh(clusters, views) && Apart(views) && C.CountsOf(Merge(views), Ok(central))
    requires |reports| == |views| && forall i | 0 <= i < |views| :: C.CountsOf(views[i], Ok(reports[i]))
    ensures Wrap(Sum(C.Expecteds(reports))) == central.expected
  {
    var scales := TalliesOf(views);
    TalliesBehind(views, reports);
    TalliesAreSeparate(views, scales);
    AllScalesSum(scales);
    WrapSums(ScaleSums(scales), C.Expecteds(reports));
    CentralTally(clusters, views, scales, central);
  }

  lemma {:induction false} CentralTally(clusters: seq<nat>, views: seq<C.View>, scales: seq<map<Uid, int>>,
                                        central: C.Counts)
    requires Mesh(clusters, views) && Apart(views) && TalliesAll(views, scales)
    requires C.CountsOf(Merge(views), Ok(central))
    ensures central.expected == Wrap(SumMap(AllScales(scales)))
  {
    var m := Merge(views);
    TalliesMerged(clusters, views, scales);
    TallyBehind(m, central);
    TallyIsUnique(m.api, m.pods, m.pods, TallyOf(m), AllScales(scales));
  }

  lemma {:induction false} HealthyIsCentral(views: seq<C.View>, reports: seq<C.Counts>, central: C.Counts)
    requires C.CountsOf(Merge(views), Ok(central))
    requires |reports| == |views| && forall i | 0 <= i < |views| :: C.CountsOf(views[i], Ok(reports[i]))
    ensures Wrap(Sum(C.Healthies(reports))) == central.healthy
  {
    AllStatusesSum(views);
    assert forall i | 0 <= i < |views| :: C.CountsOf(views[i], Ok(reports[i]));
    WrapSums(StatusCounts(views), C.Healthies(reports));
  }

  lemma {:induction false} TotalsAreCentral(clusters: seq<nat>, views: seq<C.View>, results: seq<Result<C.Counts>>,
                         central: Result<C.Counts>)
    requires Mesh(clusters, views) && Apart(views) && Reported(views, results)
    requires C.CountsOf(Merge(views), central) && central.Ok? && forall r | r in results :: r.Ok?
    ensures C.Total(C.Values(results)) == central.value
  {
    var reports := C.Values(results);
    forall i | 0 <= i < |views|
      ensures C.CountsOf(views[i], Ok(reports[i]))
    {
      assert results[i] in results && C.CountsOf(views[i], results[i]);
    }
    ExpectedIsCentral(clusters, views, reports, central.value);
    HealthyIsCentral(views, reports, central.value);
  }

  lemma {:induction false} FailsAlike(clusters: seq<nat>, views: seq<C.View>, results: seq<Result<C.Counts>>,
                                      central: Result<C.Counts>)
    requires Mesh(clusters, views) && Reported(views, results) && C.CountsOf(Merge(views), central)
    ensures central.Ok? <==> forall r | r in results :: r.Ok?
  {
    AllResolveMerged(clusters, views);
    forall i | 0 <= i < |views|
      ensures results[i] in results && (results[i].Ok? <==> AllResolve(views[i].api, views[i].pods))
    {
      assert C.CountsOf(views[i], results[i]);
    }
  }

  /** The distributed verdict is the central one.  Merge the clusters of a mesh, whose UIDs do
      not overlap, into one: counting there is as coherent as in the parts, it fails exactly
      when it fails in one of them, and otherwise its counts, int32 wrap-around included, are
      the totals on which the distributed verdict is taken. */
  lemma {:induction false} DistributedEqualsCentral(spec: Spec, candidateReady: bool, clusters: seq<nat>, views: seq<C.View>,
                                 results: seq<Result<C.Counts>>, central: Result<C.Counts>)
    requires Mesh(clusters, views) && Apart(views) && Reported(views, results)
    requires forall i | 0 <= i < |views| :: Coherent(views[i].api, views[i].pods)
    requires C.CountsOf(Merge(views), central)
    ensures Coherent(Merge(views).api, Merge(views).pods)
    ensures central.Ok? <==> forall r | r in results :: r.Ok?
    ensures central.Ok? ==>
              C.VerdictOn(spec, candidateReady, C.Values(results)) ==
              DisruptionAllowed(Some(spec), candidateReady, central.value.expected, central.value.healthy)
  {
    CoherentMerged(clusters, views);
    FailsAlike(clusters, views, results, central);
    if central.Ok? {
      TotalsAreCentral(clusters, views, results, central);
    }
  }
}
