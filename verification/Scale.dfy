/** Expected-scale resolution: from the pods of a selector to the controllers behind them and
    the sum of their scales.  The API server is a fixed snapshot. */
module Scale {
  import opened Int32
  import opened Sums
  import opened Budget

  type Uid = nat
  type Name = nat

  /** A namespace of one cluster: every cluster has namespaces of its own. */
  datatype Namespace = Namespace(cluster: nat, name: nat)

  datatype OwnerRef = OwnerRef(apiVersion: string, kind: string, name: Name, uid: Uid, controller: bool)

  /** A pod as far as its owners go. */
  datatype OwnedPod = OwnedPod(name: Name, namespace: Namespace, owners: seq<OwnerRef>)

  /** A workload object; its replica count is always set by the API server. */
  datatype Workload = Workload(uid: Uid, owners: seq<OwnerRef>, replicas: int)

  datatype Key = Key(namespace: Namespace, name: Name)

  /** The resource whose scale subresource is asked for. */
  datatype ScaleKey = ScaleKey(apiVersion: string, kind: string, key: Key)

  /** The answer for a scale subresource; offered says what discovery then answers about the
      kind: it fails, or tells whether the kind has a scale subresource. */
  datatype ScaleAnswer =
    | Answer(uid: Uid, replicas: Option<int>)
    | NotFound(offered: Result<bool>)

  /** Typed objects that are missing could not be read; so could missing scale answers. */
  datatype Api = Api(
    replicationControllers: map<Key, Workload>,
    replicaSets: map<Key, Workload>,
    statefulSets: map<Key, Workload>,
    deployments: map<Key, Workload>,
    scales: map<ScaleKey, ScaleAnswer>)

  datatype Controller = Controller(uid: Uid, scale: int)

  datatype Finder = ReplicationControllers | Deployments | ReplicaSets | StatefulSets | AnyScale

  /** The order in which the service asks. */
  const FINDERS: seq<Finder> := [ReplicationControllers, Deployments, ReplicaSets, StatefulSets, AnyScale]

  // ----- references

  function ControllerOf(owners: seq<OwnerRef>): Option<OwnerRef> {
    if owners == [] then None
    else if owners[0].controller then Some(owners[0])
    else ControllerOf(owners[1..])
  }

  /** The owner at i is the first that is marked as the controller. */
  predicate FirstController(owners: seq<OwnerRef>, i: nat) {
    i < |owners| && owners[i].controller && forall j | 0 <= j < i :: !owners[j].controller
  }

  lemma {:induction false} ControllerAt(owners: seq<OwnerRef>) returns (i: nat)
    ensures if ControllerOf(owners).Some? then FirstController(owners, i) && ControllerOf(owners).value == owners[i]
            else forall o | o in owners :: !o.controller
  {
    i := 0;
    if owners != [] && !owners[0].controller {
      var rest := owners[1..];
      i := ControllerAt(rest);
      assert owners == [owners[0]] + rest;
      i := i + 1;
    }
  }

  /** The controller is the first owner that is marked as one; an owner that is not does not count. */
  lemma {:induction false} ControllerIsFirst(owners: seq<OwnerRef>)
    ensures ControllerOf(owners).Some? <==> exists o | o in owners :: o.controller
    ensures ControllerOf(owners).Some? ==>
              exists i: nat :: FirstController(owners, i) && ControllerOf(owners).value == owners[i]
  {
    var i := ControllerAt(owners);
    if ControllerOf(owners).Some? {
      assert owners[i] in owners;
    }
  }

  function Slashes(s: string): nat {
    if s == "" then 0 else (if s[0] == '/' then 1 else 0) + Slashes(s[1..])
  }

  function UpToSlash(s: string): string {
    if s == "" || s[0] == '/' then "" else [s[0]] + UpToSlash(s[1..])
  }

  /** The group of an apiVersion; more than one slash is an error. */
  function GroupOf(apiVersion: string): Result<string> {
    if apiVersion == "" || apiVersion == "/" then Ok("")
    else if Slashes(apiVersion) == 0 then Ok("")
    else if Slashes(apiVersion) == 1 then Ok(UpToSlash(apiVersion))
    else Err
  }

  lemma {:induction false} NoSlash(s: string)
    ensures '/' !in s <==> Slashes(s) == 0
    ensures '/' !in s ==> UpToSlash(s) == s
  {
    if s != "" {
      NoSlash(s[1..]);
      assert s == [s[0]] + s[1..];
    }
  }

  lemma {:induction false} SlashesAdd(a: string, b: string)
    ensures Slashes(a + b) == Slashes(a) + Slashes(b)
  {
    if a == "" {
      assert a + b == b;
    } else {
      SlashesAdd(a[1..], b);
      assert (a + b)[1..] == a[1..] + b;
    }
  }

  lemma {:induction false} UpToFirstSlash(a: string, b: string)
    requires '/' !in a
    ensures UpToSlash(a + "/" + b) == a
  {
    var all := a + "/" + b;
    if a != "" {
      UpToFirstSlash(a[1..], b);
      assert all[1..] == a[1..] + "/" + b;
    }
  }

  /** An API version is a version, or a group and a version with a slash between them, and
      nothing else can be parsed. */
  lemma GroupsAreParsed(group: string, version: string, more: string)
    requires '/' !in group && '/' !in version
    ensures GroupOf(version) == Ok("")
    ensures GroupOf(group + "/" + version) == Ok(group)
    ensures GroupOf(group + "/" + version + "/" + more) == Err
  {
    NoSlash(group);
    NoSlash(version);
    assert Slashes("/") == 1 by {
      assert "/"[1..] == "";
    }
    SlashesAdd(group, "/");
    SlashesAdd(group + "/", version);
    SlashesAdd(group + "/" + version, "/");
    SlashesAdd(group + "/" + version + "/", more);
    UpToFirstSlash(group, version);
    assert group + "/" + version == "/" ==> group == "" by {
      assert |group + "/" + version| == |group| + 1 + |version|;
    }
    assert |group + "/" + version + "/" + more| >= 2;
  }

  function VerifyGroupKind(ref: OwnerRef, kind: string, groups: seq<string>): Result<bool> {
    match GroupOf(ref.apiVersion)
    case Err => Err
    case Ok(group) => Ok(ref.kind == kind && group in groups)
  }

  const APPS: seq<string> := ["apps", "extensions"]

  // ----- the finders

  /** The object the reference names, if it is there and is the one meant. */
  function Named(objects: map<Key, Workload>, ref: OwnerRef, ns: Namespace): Option<Workload> {
    var key := Key(ns, ref.name);
    if key in objects && objects[key].uid == ref.uid then Some(objects[key]) else None
  }

  function Typed(objects: map<Key, Workload>, ref: OwnerRef, ns: Namespace, kind: string, groups: seq<string>)
    : Result<Option<Controller>>
  {
    match VerifyGroupKind(ref, kind, groups)
    case Err => Err
    case Ok(false) => Ok(None)
    case Ok(true) =>
      match Named(objects, ref, ns)
      case None => Ok(None)
      case Some(w) => Ok(Some(Controller(w.uid, w.replicas)))
  }

  function FindReplicaSet(api: Api, ref: OwnerRef, ns: Namespace): Result<Option<Controller>> {
    match VerifyGroupKind(ref, "ReplicaSet", APPS)
    case Err => Err
    case Ok(false) => Ok(None)
    case Ok(true) =>
      match Named(api.replicaSets, ref, ns)
      case None => Ok(None)
      case Some(rs) =>
        var owner := ControllerOf(rs.owners);
        if owner.Some? && owner.value.kind == "Deployment" then Ok(None)
        else Ok(Some(Controller(rs.uid, rs.replicas)))
  }

  function FindDeployment(api: Api, ref: OwnerRef, ns: Namespace): Result<Option<Controller>> {
    match VerifyGroupKind(ref, "ReplicaSet", APPS)
    case Err => Err
    case Ok(false) => Ok(None)
    case Ok(true) =>
      match Named(api.replicaSets, ref, ns)
      case None => Ok(None)
      case Some(rs) =>
        match ControllerOf(rs.owners)
        case None => Ok(None)
        case Some(owner) => Typed(api.deployments, owner, ns, "Deployment", APPS)
  }

  function FindScale(api: Api, ref: OwnerRef, ns: Namespace): Result<Option<Controller>> {
    match GroupOf(ref.apiVersion)
    case Err => Err
    case Ok(_) =>
      var key := ScaleKey(ref.apiVersion, ref.kind, Key(ns, ref.name));
      if key !in api.scales then Err
      else
        match api.scales[key]
        case NotFound(offered) => if offered == Ok(true) then Ok(None) else Err
        case Answer(uid, replicas) =>
          if uid != ref.uid then Ok(None)
          else if replicas.None? then Err
          else Ok(Some(Controller(uid, Wrap(replicas.value))))
  }

  /** When the scale subresource answers for a reference: exactly if its API version parses and
      the subresource was read, carries the UID of the reference and has a replica count. */
  lemma ScaleAnswersExactly(api: Api, ref: OwnerRef, ns: Namespace, replicas: int)
    ensures
      var key := ScaleKey(ref.apiVersion, ref.kind, Key(ns, ref.name));
      && (FindScale(api, ref, ns) == Ok(Some(Controller(ref.uid, replicas))) <==>
            && GroupOf(ref.apiVersion).Ok? && key in api.scales && api.scales[key].Answer?
            && api.scales[key].uid == ref.uid
            && api.scales[key].replicas.Some? && replicas == Wrap(api.scales[key].replicas.value))
      && (FindScale(api, ref, ns).Ok? && FindScale(api, ref, ns).value.Some? ==>
            FindScale(api, ref, ns).value.value.uid == ref.uid)
  {
  }

  /** When it leaves the reference unresolved without an error: the subresource belongs to
      another object, or there is none although the kind has scales. */
  lemma ScalePassesExactly(api: Api, ref: OwnerRef, ns: Namespace)
    ensures
      var key := ScaleKey(ref.apiVersion, ref.kind, Key(ns, ref.name));
      FindScale(api, ref, ns) == Ok(None) <==>
        && GroupOf(ref.apiVersion).Ok? && key in api.scales
        && (api.scales[key] == NotFound(Ok(true)) || (api.scales[key].Answer? && api.scales[key].uid != ref.uid))
  {
  }

  function Find(f: Finder, api: Api, ref: OwnerRef, ns: Namespace): Result<Option<Controller>> {
    match f
    case ReplicationControllers => Typed(api.replicationControllers, ref, ns, "ReplicationController", [""])
    case Deployments => FindDeployment(api, ref, ns)
    case ReplicaSets => FindReplicaSet(api, ref, ns)
    case StatefulSets => Typed(api.statefulSets, ref, ns, "StatefulSet", ["apps"])
    case AnyScale => FindScale(api, ref, ns)
  }

  /** The first finder that fails or answers decides. */
  function Resolve(order: seq<Finder>, api: Api, ref: OwnerRef, ns: Namespace): Result<Option<Controller>> {
    if order == [] then Ok(None)
    else
      var first := Find(order[0], api, ref, ns);
      if first == Ok(None) then Resolve(order[1..], api, ref, ns) else first
  }

  // ----- unambiguous resolution

  predicate IsTyped(f: Finder) {
    f != AnyScale
  }

  predicate Answers(f: Finder, api: Api, ref: OwnerRef, ns: Namespace) {
    Find(f, api, ref, ns).Ok? && Find(f, api, ref, ns).value.Some?
  }

  lemma KindsDiffer()
    ensures "ReplicationController" != "ReplicaSet" && "ReplicationController" != "StatefulSet"
    ensures "ReplicaSet" != "StatefulSet" && "ReplicaSet" != "Deployment"
  {
    assert "ReplicaSet"[0] != "Deployment"[0];
    assert |"ReplicationController"| == 21 && |"ReplicaSet"| == 10 && |"StatefulSet"| == 11;
  }

  /** At most one typed finder answers, whatever the reference and the objects. */
  lemma AtMostOneTypedAnswer(api: Api, ref: OwnerRef, ns: Namespace, f: Finder, g: Finder)
    requires IsTyped(f) && IsTyped(g) && Answers(f, api, ref, ns) && Answers(g, api, ref, ns)
    ensures f == g
  {
    KindsDiffer();
  }

  /** The one situation in which the typed finders disagree on what to report: the owner of the
      named ReplicaSet has a malformed API version and is not called a Deployment. */
  predicate StrangeOwner(api: Api, ref: OwnerRef, ns: Namespace) {
    && VerifyGroupKind(ref, "ReplicaSet", APPS) == Ok(true)
    && Named(api.replicaSets, ref, ns).Some?
    && var owner := ControllerOf(Named(api.replicaSets, ref, ns).value.owners);
    && owner.Some? && owner.value.kind != "Deployment" && GroupOf(owner.value.apiVersion).Err?
  }

  /** Each of the four typed finders exactly once. */
  predicate AnyOrder(order: seq<Finder>) {
    multiset(order) == multiset{ReplicationControllers, Deployments, ReplicaSets, StatefulSets}
  }

  /** What the typed finders say together, in no particular order. */
  function Consensus(api: Api, ref: OwnerRef, ns: Namespace): Result<Option<Controller>> {
    if Find(Deployments, api, ref, ns) != Ok(None) then Find(Deployments, api, ref, ns)
    else if Find(ReplicaSets, api, ref, ns) != Ok(None) then Find(ReplicaSets, api, ref, ns)
    else if Find(StatefulSets, api, ref, ns) != Ok(None) then Find(StatefulSets, api, ref, ns)
    else Find(ReplicationControllers, api, ref, ns)
  }

  lemma TypedFindersAgree(api: Api, ref: OwnerRef, ns: Namespace, f: Finder)
    requires IsTyped(f) && !StrangeOwner(api, ref, ns)
    ensures Find(f, api, ref, ns) == Ok(None) || Find(f, api, ref, ns) == Consensus(api, ref, ns)
  {
    KindsDiffer();
  }

  lemma {:induction false} ResolveOpenOrder(order: seq<Finder>, rest: seq<Finder>, api: Api, ref: OwnerRef, ns: Namespace)
    requires forall f | f in order :: IsTyped(f)
    requires !StrangeOwner(api, ref, ns)
    ensures Resolve(order + rest, api, ref, ns) ==
            if forall f | f in order :: Find(f, api, ref, ns) == Ok(None) then Resolve(rest, api, ref, ns)
            else Consensus(api, ref, ns)
  {
    if order == [] {
      assert order + rest == rest;
    } else {
      TypedFindersAgree(api, ref, ns, order[0]);
      assert (order + rest)[1..] == order[1..] + rest;
      ResolveOpenOrder(order[1..], rest, api, ref, ns);
    }
  }

  lemma SameMembers(order: seq<Finder>, f: Finder)
    requires AnyOrder(order)
    ensures f in order <==> IsTyped(f)
  {
    assert f in order <==> f in multiset(order);
  }

  /** The typed finders may be asked in any order, except when a ReplicaSet has a strange owner. */
  lemma OrderIsIrrelevant(order: seq<Finder>, api: Api, ref: OwnerRef, ns: Namespace)
    requires AnyOrder(order) && !StrangeOwner(api, ref, ns)
    ensures Resolve(order + [AnyScale], api, ref, ns) == Resolve(FINDERS, api, ref, ns)
  {
    var usual := [ReplicationControllers, Deployments, ReplicaSets, StatefulSets];
    assert FINDERS == usual + [AnyScale];
    forall f
      ensures f in order <==> IsTyped(f)
      ensures f in usual <==> IsTyped(f)
    {
      SameMembers(order, f);
    }
    ResolveOpenOrder(order, [AnyScale], api, ref, ns);
    ResolveOpenOrder(usual, [AnyScale], api, ref, ns);
  }

  /** In that one situation the order does show: the usual one fails, another one answers. */
  lemma StrangeOwnerShowsOrder(api: Api, ref: OwnerRef, ns: Namespace)
    requires StrangeOwner(api, ref, ns)
    ensures Resolve(FINDERS, api, ref, ns) == Err
    ensures Resolve([ReplicationControllers, ReplicaSets, Deployments, StatefulSets, AnyScale], api, ref, ns).Ok?
  {
    KindsDiffer();
    var other := [ReplicationControllers, ReplicaSets, Deployments, StatefulSets, AnyScale];
    assert FINDERS[0] == ReplicationControllers && FINDERS[1..][0] == Deployments;
    assert other[1..][0] == ReplicaSets;
  }

  lemma OrderIsIrrelevantExactly(api: Api, ref: OwnerRef, ns: Namespace)
    ensures (forall order | AnyOrder(order) ::
               Resolve(order + [AnyScale], api, ref, ns) == Resolve(FINDERS, api, ref, ns))
            <==> !StrangeOwner(api, ref, ns)
  {
    if StrangeOwner(api, ref, ns) {
      StrangeOwnerShowsOrder(api, ref, ns);
      var order := [ReplicationControllers, ReplicaSets, Deployments, StatefulSets];
      assert AnyOrder(order);
      assert order + [AnyScale] == [ReplicationControllers, ReplicaSets, Deployments, StatefulSets, AnyScale];
    } else {
      forall order | AnyOrder(order)
        ensures Resolve(order + [AnyScale], api, ref, ns) == Resolve(FINDERS, api, ref, ns)
      {
        OrderIsIrrelevant(order, api, ref, ns);
      }
    }
  }

  // ----- the place of the generic finder

  /** All five finders, each exactly once. */
  predicate AnyOrderOfAll(order: seq<Finder>) {
    multiset(order) == multiset(FINDERS)
  }

  /** This order resolves every reference with well-formed API versions as the usual one does. */
  ghost predicate AsUsual(order: seq<Finder>) {
    forall api, ref, ns | Parses(api, ref, ns) :: Resolve(order, api, ref, ns) == Resolve(FINDERS, api, ref, ns)
  }

  const OWNER: OwnerRef := OwnerRef("apps/v1", "Deployment", 1, 1, true)

  /** A reference for which only the given typed finder answers ... */
  function SampleRef(f: Finder): OwnerRef {
    match f
    case ReplicationControllers => OwnerRef("v1", "ReplicationController", 0, 0, true)
    case StatefulSets => OwnerRef("apps/v1", "StatefulSet", 0, 0, true)
    case _ => OwnerRef("apps/v1", "ReplicaSet", 0, 0, true)
  }

  /** ... on these objects, of which no scale can be read. */
  function SampleApi(f: Finder, ns: Namespace): Api {
    var key, w := Key(ns, 0), Workload(0, [], 1);
    match f
    case ReplicationControllers => Api(map[key := w], map[], map[], map[], map[])
    case StatefulSets => Api(map[], map[], map[key := w], map[], map[])
    case ReplicaSets => Api(map[], map[key := w], map[], map[], map[])
    case _ => Api(map[], map[key := Workload(0, [OWNER], 1)], map[], map[Key(ns, 1) := Workload(1, [], 1)], map[])
  }

  lemma SampleGroups()
    ensures GroupOf("v1") == Ok("") && GroupOf("apps/v1") == Ok("apps")
  {
    assert Slashes("v1") == 0;
    assert "apps/v1"[1..] == "pps/v1" && "pps/v1"[1..] == "ps/v1" && "ps/v1"[1..] == "s/v1" && "s/v1"[1..] == "/v1";
    assert "/v1"[1..] == "v1";
    assert Slashes("/v1") == 1 && Slashes("s/v1") == 1 && Slashes("ps/v1") == 1 && Slashes("pps/v1") == 1;
    assert Slashes("apps/v1") == 1;
    assert UpToSlash("s/v1") == "s" && UpToSlash("ps/v1") == "ps" && UpToSlash("pps/v1") == "pps";
    assert UpToSlash("apps/v1") == "apps";
    assert "apps/v1" != "/" by {
      assert |"apps/v1"| == 7;
    }
  }

  lemma SampleIsAnswered(f: Finder, ns: Namespace)
    requires IsTyped(f)
    ensures Parses(SampleApi(f, ns), SampleRef(f), ns) && Answers(f, SampleApi(f, ns), SampleRef(f), ns)
    ensures FindScale(SampleApi(f, ns), SampleRef(f), ns) == Err
  {
    match f
    case Deployments => SampleDeployment(ns);
    case ReplicaSets => SampleReplicaSet(ns);
    case _ => SampleOther(f, ns);
  }

  lemma SampleOther(f: Finder, ns: Namespace)
    requires f == ReplicationControllers || f == StatefulSets
    ensures
      var api, ref := SampleApi(f, ns), SampleRef(f);
      && Parses(api, ref, ns) && Answers(f, api, ref, ns) && FindScale(api, ref, ns) == Err
  {
    SampleGroups();
    var objects := if f == StatefulSets then SampleApi(f, ns).statefulSets else SampleApi(f, ns).replicationControllers;
    assert Named(objects, SampleRef(f), ns) == Some(Workload(0, [], 1));
  }

  lemma SampleReplicaSet(ns: Namespace)
    ensures
      var api, ref := SampleApi(ReplicaSets, ns), SampleRef(ReplicaSets);
      && Parses(api, ref, ns) && Answers(ReplicaSets, api, ref, ns) && FindScale(api, ref, ns) == Err
  {
    SampleGroups();
    AppsGroups("apps");
    var api, ref := SampleApi(ReplicaSets, ns), SampleRef(ReplicaSets);
    assert Named(api.replicaSets, ref, ns) == Some(Workload(0, [], 1));
    assert FindReplicaSet(api, ref, ns) == Ok(Some(Controller(0, 1)));
  }

  lemma SampleDeployment(ns: Namespace)
    ensures
      var api, ref := SampleApi(Deployments, ns), SampleRef(Deployments);
      && Parses(api, ref, ns) && Answers(Deployments, api, ref, ns) && FindScale(api, ref, ns) == Err
  {
    SampleGroups();
    AppsGroups("apps");
    var api, ref := SampleApi(Deployments, ns), SampleRef(Deployments);
    assert ControllerOf([OWNER]) == Some(OWNER);
    assert Named(api.replicaSets, ref, ns) == Some(Workload(0, [OWNER], 1));
    assert Named(api.deployments, OWNER, ns) == Some(Workload(1, [], 1));
    assert Typed(api.deployments, OWNER, ns, "Deployment", APPS) == Ok(Some(Controller(1, 1)));
  }

  /** Where typed finder f answers, every other one has nothing to say. */
  lemma OthersAreSilent(api: Api, ref: OwnerRef, ns: Namespace, f: Finder, g: Finder)
    requires IsTyped(f) && IsTyped(g) && f != g && Parses(api, ref, ns) && Answers(f, api, ref, ns)
    ensures Find(g, api, ref, ns) == Ok(None)
  {
    TypedFindersAgree(api, ref, ns, f);
    TypedFindersAgree(api, ref, ns, g);
    if Answers(g, api, ref, ns) {
      AtMostOneTypedAnswer(api, ref, ns, f, g);
    }
  }

  /** The generic finder comes before f, so it decides although f would answer. */
  lemma {:induction false} GenericDecides(order: seq<Finder>, api: Api, ref: OwnerRef, ns: Namespace, f: Finder)
    requires IsTyped(f) && Parses(api, ref, ns) && Answers(f, api, ref, ns) && FindScale(api, ref, ns) != Ok(None)
    requires f !in order && AnyScale in order
    ensures forall rest :: Resolve(order + rest, api, ref, ns) == FindScale(api, ref, ns)
  {
    forall rest: seq<Finder>
      ensures Resolve(order + rest, api, ref, ns) == FindScale(api, ref, ns)
    {
      assert (order + rest)[0] == order[0] && (order + rest)[1..] == order[1..] + rest;
      if order[0] != AnyScale {
        OthersAreSilent(api, ref, ns, f, order[0]);
        GenericDecides(order[1..], api, ref, ns, f);
      }
    }
  }

  lemma {:induction false} AnswersInTime(api: Api, ref: OwnerRef, ns: Namespace, f: Finder)
    requires IsTyped(f) && Parses(api, ref, ns) && Answers(f, api, ref, ns)
    ensures Resolve(FINDERS, api, ref, ns) == Find(f, api, ref, ns)
  {
    TypedFindersAgree(api, ref, ns, f);
    ResolveByConsensus(api, ref, ns);
  }

  /** The last finder is not asked before, and the generic one is unless it is the last. */
  lemma LastIsAskedOnce(order: seq<Finder>)
    requires AnyOrderOfAll(order)
    ensures |order| == 5
    ensures order[4] !in order[..4] && (order[4] != AnyScale ==> AnyScale in order[..4])
  {
    assert |order| == |multiset(order)| == |FINDERS|;
    var f := order[4];
    assert order == order[..4] + [f];
    assert multiset(order) == multiset(order[..4]) + multiset{f};
    assert multiset(order)[f] == 1 && multiset(order)[AnyScale] == 1;
    assert f !in multiset(order[..4]);
    assert f != AnyScale ==> AnyScale in multiset(order[..4]);
  }

  lemma LastDiffers(order: seq<Finder>)
    requires AnyOrderOfAll(order) && |order| == 5 && order[4] != AnyScale
    ensures !AsUsual(order)
  {
    var f, ns := order[4], Namespace(0, 0);
    SampleIsAnswered(f, ns);
    LastIsAskedOnce(order);
    TooEarly(order, SampleApi(f, ns), SampleRef(f), ns);
  }

  /** Objects on which only the last finder of the order answers tell it from the usual one. */
  lemma TooEarly(order: seq<Finder>, api: Api, ref: OwnerRef, ns: Namespace)
    requires |order| == 5 && IsTyped(order[4]) && order[4] !in order[..4] && AnyScale in order[..4]
    requires Parses(api, ref, ns) && Answers(order[4], api, ref, ns) && FindScale(api, ref, ns) == Err
    ensures Resolve(order, api, ref, ns) != Resolve(FINDERS, api, ref, ns)
  {
    GenericDecides(order[..4], api, ref, ns, order[4]);
    assert order == order[..4] + [order[4]];
    assert Resolve(order[..4] + [order[4]], api, ref, ns) == Err;
    AnswersInTime(api, ref, ns, order[4]);
  }

  lemma LastIsAsUsual(order: seq<Finder>)
    requires AnyOrderOfAll(order) && |order| == 5 && order[4] == AnyScale
    ensures AsUsual(order)
  {
    var typed := order[..4];
    assert order == typed + [AnyScale];
    assert multiset(order) == multiset(typed) + multiset{AnyScale};
    assert FINDERS == FINDERS[..4] + [AnyScale];
    assert multiset(typed) == multiset(FINDERS) - multiset{AnyScale};
    assert AnyOrder(typed);
    forall api, ref, ns | Parses(api, ref, ns)
      ensures Resolve(order, api, ref, ns) == Resolve(FINDERS, api, ref, ns)
    {
      OrderIsIrrelevant(typed, api, ref, ns);
    }
  }

  /** Of all orders of the five finders, exactly those with the generic one at the end resolve
      every reference as the usual one does. */
  lemma GenericFinderHasToBeLast(order: seq<Finder>)
    requires AnyOrderOfAll(order)
    ensures |order| == 5
    ensures AsUsual(order) <==> order[4] == AnyScale
  {
    LastIsAskedOnce(order);
    if order[4] == AnyScale {
      LastIsAsUsual(order);
    } else {
      LastDiffers(order);
    }
  }

  /** What goes wrong in practice: whenever the generic finder is asked before the one for
      Deployments and both have an answer, the pod is counted for its ReplicaSet instead of the
      Deployment behind it. */
  lemma GenericFinderMisreports(early: seq<Finder>, late: seq<Finder>, api: Api, ref: OwnerRef, ns: Namespace)
    requires Parses(api, ref, ns) && Deployments !in early && AnyScale in early
    requires Answers(Deployments, api, ref, ns) && Answers(AnyScale, api, ref, ns)
    ensures Resolve(early + late, api, ref, ns).Ok? && Resolve(early + late, api, ref, ns).value.Some?
    ensures Resolve(early + late, api, ref, ns).value.value.uid == ref.uid
    ensures Resolve(FINDERS, api, ref, ns) == FindDeployment(api, ref, ns)
  {
    GenericDecides(early, api, ref, ns, Deployments);
    AnswersInTime(api, ref, ns, Deployments);
  }

  /** The controller a ReplicaSet counts for: its Deployment if it has one that can be read,
      the ReplicaSet itself if its owner is no Deployment, otherwise left to its scale. */
  function BehindReplicaSet(api: Api, rs: Workload, ns: Namespace): Option<Controller> {
    match ControllerOf(rs.owners)
    case None => Some(Controller(rs.uid, rs.replicas))
    case Some(owner) =>
      if owner.kind != "Deployment" then Some(Controller(rs.uid, rs.replicas))
      else if GroupOf(owner.apiVersion) == Ok("apps") || GroupOf(owner.apiVersion) == Ok("extensions") then
        match Named(api.deployments, owner, ns)
        case None => None
        case Some(d) => Some(Controller(d.uid, d.replicas))
      else None
  }

  /** The typed object the reference names stands for this controller. */
  function BehindReference(api: Api, ref: OwnerRef, ns: Namespace): Option<Controller> {
    var group := GroupOf(ref.apiVersion);
    if ref.kind == "ReplicaSet" && (group == Ok("apps") || group == Ok("extensions")) then
      match Named(api.replicaSets, ref, ns)
      case None => None
      case Some(rs) => BehindReplicaSet(api, rs, ns)
    else
      var objects := if ref.kind == "StatefulSet" && group == Ok("apps") then api.statefulSets
                     else if ref.kind == "ReplicationController" && group == Ok("") then api.replicationControllers
                     else map[];
      match Named(objects, ref, ns)
      case None => None
      case Some(w) => Some(Controller(w.uid, w.replicas))
  }

  /** The API versions that resolution has to parse are well formed. */
  predicate Parses(api: Api, ref: OwnerRef, ns: Namespace) {
    && GroupOf(ref.apiVersion).Ok?
    && var rs := Named(api.replicaSets, ref, ns);
    && (rs.Some? && ControllerOf(rs.value.owners).Some? ==> GroupOf(ControllerOf(rs.value.owners).value.apiVersion).Ok?)
  }

  lemma AppsGroups(group: string)
    ensures group in APPS <==> group == "apps" || group == "extensions"
  {
    assert APPS[0] == "apps" && APPS[1] == "extensions";
  }

  lemma ReplicaSetIsBehind(api: Api, ref: OwnerRef, ns: Namespace)
    requires Parses(api, ref, ns) && VerifyGroupKind(ref, "ReplicaSet", APPS) == Ok(true)
    requires Named(api.replicaSets, ref, ns).Some?
    ensures Consensus(api, ref, ns) == Ok(BehindReplicaSet(api, Named(api.replicaSets, ref, ns).value, ns))
  {
    KindsDiffer();
    var owner := ControllerOf(Named(api.replicaSets, ref, ns).value.owners);
    if owner.Some? {
      AppsGroups(GroupOf(owner.value.apiVersion).value);
    }
  }

  lemma ConsensusIsBehind(api: Api, ref: OwnerRef, ns: Namespace)
    requires Parses(api, ref, ns)
    ensures Consensus(api, ref, ns) == Ok(BehindReference(api, ref, ns))
  {
    AppsGroups(GroupOf(ref.apiVersion).value);
    KindsDiffer();
    if VerifyGroupKind(ref, "ReplicaSet", APPS) == Ok(true) && Named(api.replicaSets, ref, ns).Some? {
      ReplicaSetIsBehind(api, ref, ns);
    }
  }

  lemma ResolveByConsensus(api: Api, ref: OwnerRef, ns: Namespace)
    requires !StrangeOwner(api, ref, ns)
    ensures Resolve(FINDERS, api, ref, ns) ==
            if Consensus(api, ref, ns) == Ok(None) then FindScale(api, ref, ns) else Consensus(api, ref, ns)
  {
    var typed := [ReplicationControllers, Deployments, ReplicaSets, StatefulSets];
    assert FINDERS == typed + [AnyScale];
    forall f
      ensures f in typed <==> IsTyped(f)
      ensures IsTyped(f) ==>
                Find(f, api, ref, ns) == Ok(None) || Find(f, api, ref, ns) == Consensus(api, ref, ns)
    {
      SameMembers(typed, f);
      if IsTyped(f) {
        TypedFindersAgree(api, ref, ns, f);
      }
    }
    ResolveOpenOrder(typed, [AnyScale], api, ref, ns);
    assert [AnyScale][1..] == [];
  }

  /** Asking the finders one after the other amounts to a single look at the reference: the
      object it names decides, and only where that says nothing does the scale subresource. */
  lemma ResolutionIsOneLook(api: Api, ref: OwnerRef, ns: Namespace)
    requires Parses(api, ref, ns)
    ensures Resolve(FINDERS, api, ref, ns) ==
            if BehindReference(api, ref, ns).Some? then Ok(BehindReference(api, ref, ns))
            else FindScale(api, ref, ns)
  {
    ConsensusIsBehind(api, ref, ns);
    ResolveByConsensus(api, ref, ns);
  }

  // ----- the expected scale of a list of pods

  predicate Managed(pod: OwnedPod) {
    ControllerOf(pod.owners).Some?
  }

  function RefOf(pod: OwnedPod): OwnerRef
    requires Managed(pod)
  {
    ControllerOf(pod.owners).value
  }

  function ResolvePod(api: Api, pod: OwnedPod): Result<Option<Controller>>
    requires Managed(pod)
  {
    Resolve(FINDERS, api, RefOf(pod), pod.namespace)
  }

  predicate Resolves(api: Api, pod: OwnedPod)
    requires Managed(pod)
  {
    ResolvePod(api, pod).Ok? && ResolvePod(api, pod).value.Some?
  }

  function ControllerFor(api: Api, pod: OwnedPod): Controller
    requires Managed(pod) && Resolves(api, pod)
  {
    ResolvePod(api, pod).value.value
  }

  predicate AllResolve(api: Api, pods: seq<OwnedPod>) {
    forall p | p in pods && Managed(p) :: Resolves(api, p)
  }

  /** A pod q whose owner reference carries the UID of the controller found for p resolves to
      that controller, and one controller has one scale. */
  predicate Agree(api: Api, p: OwnedPod, q: OwnedPod)
    requires Managed(p) && Managed(q) && Resolves(api, p)
  {
    && (RefOf(q).uid == ControllerFor(api, p).uid ==> ResolvePod(api, q) == ResolvePod(api, p))
    && (Resolves(api, q) && ControllerFor(api, q).uid == ControllerFor(api, p).uid ==>
          ControllerFor(api, q) == ControllerFor(api, p))
  }

  /** The cache may be trusted. */
  predicate Coherent(api: Api, pods: seq<OwnedPod>) {
    forall p, q | p in pods && q in pods && Managed(p) && Managed(q) && Resolves(api, p) :: Agree(api, p, q)
  }

  /** scales holds exactly the controllers of these pods, each with its scale. */
  predicate Tallies(api: Api, pods: seq<OwnedPod>, scales: map<Uid, int>) {
    && (forall p | p in pods && Managed(p) ::
          Resolves(api, p) && ControllerFor(api, p).uid in scales
          && scales[ControllerFor(api, p).uid] == ControllerFor(api, p).scale)
    && (forall u | u in scales ::
          exists p | p in pods && Managed(p) :: Resolves(api, p) && ControllerFor(api, p).uid == u)
  }

  /** Asking the finders in turn. */
  method FindController(api: Api, ref: OwnerRef, ns: Namespace) returns (found: Result<Option<Controller>>)
    ensures found == Resolve(FINDERS, api, ref, ns)
  {
    found := Ok(None);
    for i := 0 to |FINDERS|
      invariant found == Ok(None)
      invariant Resolve(FINDERS, api, ref, ns) == Resolve(FINDERS[i..], api, ref, ns)
    {
      found := Find(FINDERS[i], api, ref, ns);
      assert FINDERS[i..][0] == FINDERS[i] && FINDERS[i..][1..] == FINDERS[i + 1..];
      if found != Ok(None) {
        return;
      }
    }
  }

  /** done and the scales that are left make up the whole, and sum is done as an int32. */
  ghost predicate Halfway(scales: map<Uid, int>, rest: map<Uid, int>, done: int, sum: int) {
    done + SumMap(rest) == SumMap(scales) && sum == Wrap(done)
  }

  lemma AddOne(scales: map<Uid, int>, rest: map<Uid, int>, u: Uid, done: int, sum: int)
    requires u in rest && Halfway(scales, rest, done, sum)
    ensures Halfway(scales, rest - {u}, done + rest[u], Wrap(sum + rest[u]))
    ensures |rest - {u}| < |rest|
  {
    SumRemove(rest, u);
    WrapAbsorbs(done, rest[u]);
    assert (rest - {u}).Keys == rest.Keys - {u};
  }

  lemma AddedUp(scales: map<Uid, int>, rest: map<Uid, int>, done: int, sum: int)
    requires rest == map[] && Halfway(scales, rest, done, sum)
    ensures sum == Wrap(SumMap(scales))
  {
  }

  /** Adding up the scales in whatever order the map is walked. */
  method AddUp(scales: map<Uid, int>) returns (expectedCount: int)
    ensures expectedCount == Wrap(SumMap(scales))
  {
    expectedCount := 0;
    var rest := scales;
    ghost var done := 0;
    while rest != map[]
      invariant Halfway(scales, rest, done, expectedCount)
      decreases |rest|
    {
      var u :| u in rest;
      AddOne(scales, rest, u, done, expectedCount);
      done := done + rest[u];
      expectedCount, rest := Wrap(expectedCount + rest[u]), rest - {u};
    }
    AddedUp(scales, rest, done, expectedCount);
  }

  /** What the memoising loop does with any objects, coherent or not: the controllers found so
      far, or an error at the first pod that needs one and does not resolve. */
  function Memo(api: Api, pods: seq<OwnedPod>): Result<map<Uid, int>> {
    if pods == [] then Ok(map[])
    else
      var front, pod := Memo(api, pods[..|pods| - 1]), pods[|pods| - 1];
      if front.Err? || !Managed(pod) || RefOf(pod).uid in front.value then front
      else if !Resolves(api, pod) then Err
      else Ok(front.value[ControllerFor(api, pod).uid := ControllerFor(api, pod).scale])
  }

  lemma {:induction false} MemoStaysErr(api: Api, pods: seq<OwnedPod>, i: nat)
    requires i <= |pods| && Memo(api, pods[..i]).Err?
    ensures Memo(api, pods).Err?
    decreases |pods|
  {
    if i == |pods| {
      assert pods[..i] == pods;
    } else {
      assert pods[..|pods| - 1][..i] == pods[..i];
      MemoStaysErr(api, pods[..|pods| - 1], i);
    }
  }

  lemma MemoStep(api: Api, pods: seq<OwnedPod>, i: nat)
    requires i < |pods|
    ensures
      var front, pod, next := Memo(api, pods[..i]), pods[i], Memo(api, pods[..i + 1]);
      && (front.Ok? && (!Managed(pod) || RefOf(pod).uid in front.value) ==> next == front)
      && (front.Ok? && Managed(pod) && RefOf(pod).uid !in front.value ==>
            next == if !Resolves(api, pod) then Err
                    else Ok(front.value[ControllerFor(api, pod).uid := ControllerFor(api, pod).scale]))
  {
    assert pods[..i + 1][..i] == pods[..i] && pods[..i + 1][i] == pods[i];
  }

  /** The first half of FindExpectedScale, the memoising loop.  Its cache is looked up under
      the UID of the pod's owner and filled under the UID of the controller that was found,
      which may be another one; on coherent objects that still tallies every controller once. */
  method TallyControllers(api: Api, pods: seq<OwnedPod>)
    returns (ok: bool, controllerScale: map<Uid, int>, unmanaged: seq<Name>)
    ensures Coherent(api, pods) ==> (ok <==> AllResolve(api, pods))
    ensures Coherent(api, pods) && ok ==> Tallies(api, pods, controllerScale)
    ensures ok ==> unmanaged == Unmanaged(pods)
    ensures (forall p | p in pods :: !Managed(p)) ==> ok && controllerScale == map[]
    ensures if ok then Memo(api, pods) == Ok(controllerScale) else Memo(api, pods) == Err
  {
    ok, controllerScale, unmanaged := true, map[], [];
    for i := 0 to |pods|
      invariant (forall p | p in pods :: !Managed(p)) ==> controllerScale == map[]
      invariant Memo(api, pods[..i]) == Ok(controllerScale)
      invariant unmanaged == Unmanaged(pods[..i])
      invariant Coherent(api, pods) ==> Tallies(api, pods[..i], controllerScale)
    {
      var pod := pods[i];
      assert pods[..i + 1] == pods[..i] + [pod];
      UnmanagedStep(pods[..i], pod);
      MemoStep(api, pods, i);
      if !Managed(pod) {
        unmanaged := unmanaged + [pod.name];
        TallySkip(api, pods, i, controllerScale);
        continue;
      }
      if RefOf(pod).uid in controllerScale {
        TallyHit(api, pods, i, controllerScale);
        continue;
      }
      var found := FindController(api, RefOf(pod), pod.namespace);
      if found.Err? || found.value.None? {
        assert pod in pods && !Resolves(api, pod);
        MemoStaysErr(api, pods, i + 1);
        ok := false;
        return;
      }
      TallyMiss(api, pods, i, controllerScale);
      controllerScale := controllerScale[found.value.value.uid := found.value.value.scale];
    }
    assert pods[..|pods|] == pods;
  }

  /** n is the sum of the scales of all controllers behind these pods. */
  ghost predicate ExpectedScale(api: Api, pods: seq<OwnedPod>, n: int) {
    exists scales: map<Uid, int> :: Tallies(api, pods, scales) && n == Wrap(SumMap(scales))
  }

  method FindExpectedScale(api: Api, pods: seq<OwnedPod>) returns (expected: Result<int>, unmanaged: seq<Name>)
    ensures Coherent(api, pods) ==> (expected.Ok? <==> AllResolve(api, pods))
    ensures Coherent(api, pods) && expected.Ok? ==> ExpectedScale(api, pods, expected.value)
    ensures expected.Ok? ==> unmanaged == Unmanaged(pods)
    ensures (forall p | p in pods :: Uncontrolled(p)) ==> expected == Ok(0) && |unmanaged| == |pods|
    ensures if expected.Ok? then Memo(api, pods).Ok? && expected.value == Wrap(SumMap(Memo(api, pods).value))
            else Memo(api, pods).Err?
  {
    UnmanagedAll(pods);
    var ok, controllerScale, names := TallyControllers(api, pods);
    unmanaged := names;
    if !ok {
      return Err, unmanaged;
    }
    var sum := AddUp(controllerScale);
    expected := Ok(sum);
  }

  /** None of the owners of the pod is marked as its controller. */
  predicate Uncontrolled(pod: OwnedPod) {
    forall o | o in pod.owners :: !o.controller
  }

  /** Pods are unmanaged exactly when none of their owners is their controller; a list of such
      pods has nothing to tally. */
  lemma {:induction false} UnmanagedAll(pods: seq<OwnedPod>)
    ensures forall p | p in pods :: Managed(p) <==> !Uncontrolled(p)
    ensures (forall p | p in pods :: Uncontrolled(p)) ==>
              && |Unmanaged(pods)| == |pods| && (forall i | 0 <= i < |pods| :: Unmanaged(pods)[i] == pods[i].name)
  {
    forall p | p in pods
      ensures Managed(p) <==> !Uncontrolled(p)
    {
      ControllerIsFirst(p.owners);
    }
    if pods != [] {
      UnmanagedAll(pods[..|pods| - 1]);
      assert pods == pods[..|pods| - 1] + [pods[|pods| - 1]];
    }
  }

  function Unmanaged(pods: seq<OwnedPod>): seq<Name> {
    if pods == [] then []
    else Unmanaged(pods[..|pods| - 1]) + (if Managed(pods[|pods| - 1]) then [] else [pods[|pods| - 1].name])
  }

  lemma UnmanagedStep(pods: seq<OwnedPod>, pod: OwnedPod)
    ensures Unmanaged(pods + [pod]) == Unmanaged(pods) + (if Managed(pod) then [] else [pod.name])
  {
    assert (pods + [pod])[..|pods|] == pods;
  }

  lemma TallySkip(api: Api, pods: seq<OwnedPod>, i: nat, scales: map<Uid, int>)
    requires i < |pods| && !Managed(pods[i])
    ensures Tallies(api, pods[..i], scales) ==> Tallies(api, pods[..i + 1], scales)
  {
    assert pods[..i + 1] == pods[..i] + [pods[i]];
  }

  lemma TallyHit(api: Api, pods: seq<OwnedPod>, i: nat, scales: map<Uid, int>)
    requires i < |pods| && Managed(pods[i]) && RefOf(pods[i]).uid in scales
    ensures Coherent(api, pods) && Tallies(api, pods[..i], scales) ==> Tallies(api, pods[..i + 1], scales)
  {
    if Coherent(api, pods) && Tallies(api, pods[..i], scales) {
      var pod := pods[i];
      assert pods[..i + 1] == pods[..i] + [pod];
      var p :| p in pods[..i] && Managed(p) && Resolves(api, p) && ControllerFor(api, p).uid == RefOf(pod).uid;
      assert p in pods && pod in pods;
      assert Agree(api, p, pod);
      AddTallied(api, pods[..i], pod, scales);
    }
  }

  lemma AddTallied(api: Api, pods: seq<OwnedPod>, pod: OwnedPod, scales: map<Uid, int>)
    requires Tallies(api, pods, scales) && Managed(pod) && Resolves(api, pod)
    requires ControllerFor(api, pod).uid in scales
    requires scales[ControllerFor(api, pod).uid] == ControllerFor(api, pod).scale
    ensures Tallies(api, pods + [pod], scales)
  {
    forall u | u in scales
      ensures exists p | p in pods + [pod] && Managed(p) :: Resolves(api, p) && ControllerFor(api, p).uid == u
    {
      var p :| p in pods && Managed(p) && Resolves(api, p) && ControllerFor(api, p).uid == u;
      assert p in pods + [pod];
    }
  }

  lemma TallyMiss(api: Api, pods: seq<OwnedPod>, i: nat, scales: map<Uid, int>)
    requires i < |pods| && Managed(pods[i]) && Resolves(api, pods[i])
    ensures
      var c := ControllerFor(api, pods[i]);
      Coherent(api, pods) && Tallies(api, pods[..i], scales) ==>
        Tallies(api, pods[..i + 1], scales[c.uid := c.scale])
  {
    if Coherent(api, pods) && Tallies(api, pods[..i], scales) {
      var pod, c := pods[i], ControllerFor(api, pods[i]);
      assert pods[..i + 1] == pods[..i] + [pod];
      var scales' := scales[c.uid := c.scale];
      forall p | p in pods[..i + 1] && Managed(p)
        ensures Resolves(api, p) && ControllerFor(api, p).uid in scales'
                && scales'[ControllerFor(api, p).uid] == ControllerFor(api, p).scale
      {
        assert p in pods && pod in pods;
        assert Agree(api, pod, p);
      }
      forall u | u in scales'
        ensures exists p | p in pods[..i + 1] && Managed(p) :: Resolves(api, p) && ControllerFor(api, p).uid == u
      {
        if u != c.uid {
          var p :| p in pods[..i] && Managed(p) && Resolves(api, p) && ControllerFor(api, p).uid == u;
          assert p in pods[..i + 1];
        } else {
          assert pod in pods[..i + 1];
        }
      }
    }
  }

  /** The tally depends on which pods there are, not on their order or repetition. */
  lemma TallyIsUnique(api: Api, pods: seq<OwnedPod>, pods': seq<OwnedPod>, scales: map<Uid, int>, scales': map<Uid, int>)
    requires forall p :: p in pods <==> p in pods'
    requires Tallies(api, pods, scales) && Tallies(api, pods', scales')
    ensures scales == scales'
  {
    TallyIncluded(api, pods, pods', scales, scales');
    TallyIncluded(api, pods', pods, scales', scales);
  }

  lemma TallyIncluded(api: Api, pods: seq<OwnedPod>, pods': seq<OwnedPod>, scales: map<Uid, int>, scales': map<Uid, int>)
    requires forall p :: p in pods ==> p in pods'
    requires Tallies(api, pods, scales) && Tallies(api, pods', scales')
    ensures forall u | u in scales :: u in scales' && scales[u] == scales'[u]
  {
    forall u | u in scales
      ensures u in scales' && scales[u] == scales'[u]
    {
      var p :| p in pods && Managed(p) && Resolves(api, p) && ControllerFor(api, p).uid == u;
    }
  }

  /** Two lists with the same pods, in any order and with any repetition, have the same
      expected scale. */
  lemma {:induction false} ExpectedScaleIgnoresOrder(api: Api, pods: seq<OwnedPod>, pods': seq<OwnedPod>, n: int, n': int)
    requires forall p :: p in pods <==> p in pods'
    requires ExpectedScale(api, pods, n) && ExpectedScale(api, pods', n')
    ensures n == n'
  {
    var scales: map<Uid, int> :| Tallies(api, pods, scales) && n == Wrap(SumMap(scales));
    var scales': map<Uid, int> :| Tallies(api, pods', scales') && n' == Wrap(SumMap(scales'));
    TallyIsUnique(api, pods, pods', scales, scales');
  }

  // ----- when the cache may be trusted

  /** The scale subresource the reference leads to reports this workload. */
  predicate ScaledThrough(api: Api, ref: OwnerRef, ns: Namespace, w: Workload) {
    var key := ScaleKey(ref.apiVersion, ref.kind, Key(ns, ref.name));
    && ref.kind == "Deployment" && GroupOf(ref.apiVersion).Ok? && Fits(w.replicas)
    && key in api.scales && api.scales[key] == Answer(w.uid, Some(w.replicas))
  }

  /** Kubernetes' own guarantees: a UID stands for one object.  References with equal UIDs are
      equal and come from one namespace; deployments with equal UIDs agree; and a pod that is
      owned by a Deployment directly reaches it through its scale subresource. */
  predicate UidsIdentify(api: Api, pods: seq<OwnedPod>) {
    && (forall p, q | p in pods && q in pods && Managed(p) && Managed(q) && RefOf(p).uid == RefOf(q).uid ::
          RefOf(p) == RefOf(q) && p.namespace == q.namespace)
    && (forall j, k | j in api.deployments && k in api.deployments && api.deployments[j].uid == api.deployments[k].uid ::
          api.deployments[j].replicas == api.deployments[k].replicas)
    && (forall p, k | p in pods && Managed(p) && k in api.deployments && RefOf(p).uid == api.deployments[k].uid ::
          ScaledThrough(api, RefOf(p), p.namespace, api.deployments[k]))
  }

  lemma DirectDeployment(api: Api, pod: OwnedPod, w: Workload)
    requires Managed(pod) && RefOf(pod).uid == w.uid && ScaledThrough(api, RefOf(pod), pod.namespace, w)
    ensures ResolvePod(api, pod) == Ok(Some(Controller(w.uid, w.replicas)))
  {
    var ref, ns := RefOf(pod), pod.namespace;
    assert "Deployment" != "ReplicaSet" && "Deployment" != "StatefulSet" && "Deployment" != "ReplicationController" by {
      assert "ReplicaSet"[0] != "Deployment"[0] && "StatefulSet"[0] != "Deployment"[0];
      assert "ReplicationController"[0] != "Deployment"[0];
    }
    var typed := FINDERS[..4];
    assert FINDERS == typed + [AnyScale];
    assert forall f | f in typed :: Find(f, api, ref, ns) == Ok(None);
    ResolveOpenOrder(typed, [AnyScale], api, ref, ns);
    assert [AnyScale][1..] == [];
  }

  lemma {:induction false} SomeFinderAnswered(order: seq<Finder>, api: Api, ref: OwnerRef, ns: Namespace) returns (f: Finder)
    requires Resolve(order, api, ref, ns).Ok? && Resolve(order, api, ref, ns).value.Some?
    ensures f in order && Find(f, api, ref, ns) == Resolve(order, api, ref, ns)
  {
    if Find(order[0], api, ref, ns) == Ok(None) {
      f := SomeFinderAnswered(order[1..], api, ref, ns);
    } else {
      f := order[0];
    }
  }

  /** A pod resolves to the controller it refers to, or to a Deployment. */
  lemma ResolvesToOwnerOrDeployment(api: Api, pod: OwnedPod)
    requires Managed(pod) && Resolves(api, pod)
    ensures
      var c := ControllerFor(api, pod);
      || c.uid == RefOf(pod).uid
      || exists k | k in api.deployments :: api.deployments[k].uid == c.uid && api.deployments[k].replicas == c.scale
  {
    var ref, ns := RefOf(pod), pod.namespace;
    var f := SomeFinderAnswered(FINDERS, api, ref, ns);
    if f == Deployments {
      var rs := Named(api.replicaSets, ref, ns).value;
      var owner := ControllerOf(rs.owners).value;
      assert Key(ns, owner.name) in api.deployments;
    }
  }

  lemma CoherentPair(api: Api, pods: seq<OwnedPod>, p: OwnedPod, q: OwnedPod)
    requires UidsIdentify(api, pods) && p in pods && q in pods && Managed(p) && Managed(q) && Resolves(api, p)
    ensures Agree(api, p, q)
  {
    var c := ControllerFor(api, p);
    ResolvesToOwnerOrDeployment(api, p);
    if RefOf(q).uid == c.uid {
      OwnUid(api, pods, p, q);
    } else if Resolves(api, q) && ControllerFor(api, q).uid == c.uid {
      ResolvesToOwnerOrDeployment(api, q);
      if RefOf(p).uid == c.uid {
        OwnUid(api, pods, q, p);
      }
    }
  }

  /** A pod that refers to the controller another one resolves to resolves to it as well. */
  lemma OwnUid(api: Api, pods: seq<OwnedPod>, p: OwnedPod, q: OwnedPod)
    requires UidsIdentify(api, pods) && p in pods && q in pods && Managed(p) && Managed(q) && Resolves(api, p)
    requires RefOf(q).uid == ControllerFor(api, p).uid
    ensures ResolvePod(api, q) == ResolvePod(api, p)
  {
    var c := ControllerFor(api, p);
    if RefOf(p).uid != c.uid {
      ResolvesToOwnerOrDeployment(api, p);
      var k :| k in api.deployments && api.deployments[k].uid == c.uid && api.deployments[k].replicas == c.scale;
      DirectDeployment(api, q, api.deployments[k]);
    }
  }

  lemma UidsMakeCoherent(api: Api, pods: seq<OwnedPod>)
    requires UidsIdentify(api, pods)
    ensures Coherent(api, pods)
  {
    forall p, q | p in pods && q in pods && Managed(p) && Managed(q) && Resolves(api, p)
      ensures Agree(api, p, q)
    {
      CoherentPair(api, pods, p, q);
    }
  }
}
