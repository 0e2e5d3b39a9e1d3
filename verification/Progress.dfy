/** Leftover leases block only until they expire: a Lock that runs alone and without errors on
    free slots of distinct clusters is never refused and never stuck. */
module Progress {
  import opened Leases
  import opened Sums
  import opened LockProtocol

  /** A step of request id's own LocalLock calls, without errors; or time passing. */
  predicate Alone(step: Step, id: Identity) {
    match step
    case Tick(_) => true
    case BuildTemplate(q, _) => q == id
    case Create(q, _, lost) => q == id && !lost
    case Get(q, _) => q == id
    case CheckDeadline(q, _) => q == id
    case Restamp(q, _) => q == id
    case Update(q, _, lost) => q == id && !lost
    case _ => false
  }

  predicate AllAlone(steps: seq<Step>, id: Identity) {
    forall step | step in steps :: Alone(step, id)
  }

  /** The task has acquired its lease, or nobody else stands in its way. */
  predicate OnItsWay(now: Time, st: Store, r: Request, i: nat)
    requires r.WellShaped() && i < |r.clusters|
  {
    var slot := r.At(i);
    match r.locks[i]
    case Acquired(_) => true
    case Refused => false
    case Exists => slot in st.leases && st.Free(slot, now)
    case Read(seen) => slot in st.leases && st.leases[slot] == seen && !Live(seen, now)
    case Expired(seen) => slot in st.leases && st.leases[slot] == seen
    case Updating(seen, _) => slot in st.leases && st.leases[slot] == seen
    case _ => st.Free(slot, now)
  }

  predicate Unhindered(s: State, id: Identity) {
    && id in s.requests && s.requests[id].WellShaped() && Distinct(s.requests[id].clusters)
    && s.requests[id].status.Pending?
    && forall i :: 0 <= i < |s.requests[id].clusters| ==> OnItsWay(s.now, s.store, s.requests[id], i)
  }

  lemma AloneKeepsOwn(duration: nat, s: State, step: Step, id: Identity)
    requires Unhindered(s, id) && Enabled(s, step) && Alone(step, id) && !step.Tick?
    ensures
      var s' := Apply(duration, s, step);
      && HasTask(s', id, step.i) && s'.requests[id].clusters == s.requests[id].clusters
      && OnItsWay(s'.now, s'.store, s'.requests[id], step.i)
      && s'.now == s.now && s'.requests[id].name == s.requests[id].name && s'.requests[id].status.Pending?
      && (forall k | 0 <= k < |s.requests[id].clusters| && k != step.i ::
            s'.requests[id].locks[k] == s.requests[id].locks[k])
      && s'.store.leases - {s.requests[id].At(step.i)} == s.store.leases - {s.requests[id].At(step.i)}
      && Left(s'.requests[id].locks[step.i]) < Left(s.requests[id].locks[step.i])
  {
    assert OnItsWay(s.now, s.store, s.requests[id], step.i);
  }

  /** Tasks of the request are on different slots. */
  lemma OtherSlot(s: State, id: Identity, i: nat, k: nat)
    requires Unhindered(s, id) && i < |s.requests[id].clusters| && k < |s.requests[id].clusters| && i != k
    ensures s.requests[id].At(i) != s.requests[id].At(k)
  {
  }

  lemma AloneKeepsUnhindered(duration: nat, s: State, step: Step, id: Identity)
    requires Unhindered(s, id) && Enabled(s, step) && Alone(step, id)
    ensures Unhindered(Apply(duration, s, step), id)
  {
    var s' := Apply(duration, s, step);
    if !step.Tick? {
      AloneKeepsOwn(duration, s, step, id);
    }
    forall k | 0 <= k < |s.requests[id].clusters|
      ensures OnItsWay(s'.now, s'.store, s'.requests[id], k)
    {
      assert OnItsWay(s.now, s.store, s.requests[id], k);
      if !step.Tick? && k != step.i {
        OtherSlot(s, id, step.i, k);
        SameAt(s.store, s'.store, s.requests[id].At(step.i), s.requests[id].At(k));
      }
    }
  }

  lemma SameAt(a: Store, b: Store, slot: Slot, other: Slot)
    requires a.leases - {slot} == b.leases - {slot} && other != slot
    ensures other in a.leases <==> other in b.leases
    ensures other in a.leases ==> a.leases[other] == b.leases[other]
  {
    assert other in a.leases <==> other in a.leases - {slot};
    assert other in b.leases <==> other in b.leases - {slot};
    assert other in a.leases ==> (a.leases - {slot})[other] == (b.leases - {slot})[other];
  }

  // ----- how long it takes

  /** The calls and clock readings a LocalLock has at most before it. */
  function Left(task: LockTask): nat {
    match task
    case Idle => 6
    case Creating(_) => 5
    case Exists => 4
    case Read(_) => 3
    case Expired(_) => 2
    case Updating(_, _) => 1
    case _ => 0
  }

  function Lefts(locks: seq<LockTask>): seq<int> {
    seq(|locks|, i requires 0 <= i < |locks| => Left(locks[i]))
  }

  lemma {:induction false} SumUpdate(xs: seq<int>, i: nat, v: int)
    requires i < |xs|
    ensures Sum(xs[i := v]) == Sum(xs) - xs[i] + v
  {
    var n := |xs| - 1;
    if i < n {
      SumUpdate(xs[..n], i, v);
      assert xs[i := v][..n] == xs[..n][i := v];
    } else {
      assert xs[i := v][..n] == xs[..n];
    }
  }

  lemma {:induction false} LeftsBound(locks: seq<LockTask>)
    ensures 0 <= Sum(Lefts(locks)) <= 6 * |locks|
  {
    if locks != [] {
      LeftsBound(locks[..|locks| - 1]);
      assert Lefts(locks)[..|locks| - 1] == Lefts(locks[..|locks| - 1]);
    }
  }

  function OwnSteps(steps: seq<Step>): nat {
    if steps == [] then 0 else (if steps[0].Tick? then 0 else 1) + OwnSteps(steps[1..])
  }

  lemma AloneSpends(duration: nat, s: State, step: Step, id: Identity)
    requires Unhindered(s, id) && Enabled(s, step) && Alone(step, id)
    ensures
      var s' := Apply(duration, s, step);
      && id in s'.requests && s'.requests[id].clusters == s.requests[id].clusters
      && Sum(Lefts(s'.requests[id].locks)) + (if step.Tick? then 0 else 1) <= Sum(Lefts(s.requests[id].locks))
  {
    if !step.Tick? {
      AloneKeepsOwn(duration, s, step, id);
      var s' := Apply(duration, s, step);
      var before, after := s.requests[id].locks, s'.requests[id].locks;
      assert |after| == |before|;
      SumUpdate(Lefts(before), step.i, Left(after[step.i]));
      assert Lefts(after) == Lefts(before)[step.i := Left(after[step.i])];
    }
  }

  lemma {:induction false} AloneRun(duration: nat, s: State, steps: seq<Step>, id: Identity)
    requires Unhindered(s, id) && Valid(duration, s, steps) && AllAlone(steps, id)
    ensures Unhindered(Final(duration, s, steps), id)
    ensures Final(duration, s, steps).requests[id].clusters == s.requests[id].clusters
    ensures Sum(Lefts(Final(duration, s, steps).requests[id].locks)) + OwnSteps(steps)
            <= Sum(Lefts(s.requests[id].locks))
    decreases |steps|
  {
    if steps != [] {
      assert steps[0] in steps;
      AloneKeepsUnhindered(duration, s, steps[0], id);
      AloneSpends(duration, s, steps[0], id);
      AloneRun(duration, Apply(duration, s, steps[0]), steps[1..], id);
    }
  }

  /** No step of the request's own calls is left to take. */
  predicate Quiet(s: State, id: Identity)
    requires id in s.requests && s.requests[id].WellShaped()
  {
    forall i | 0 <= i < |s.requests[id].clusters| ::
      && !Enabled(s, BuildTemplate(id, i)) && !Enabled(s, Create(id, i, false)) && !Enabled(s, Get(id, i))
      && !Enabled(s, CheckDeadline(id, i)) && !Enabled(s, Restamp(id, i)) && !Enabled(s, Update(id, i, false))
  }

  lemma QuietMeansAcquired(s: State, id: Identity)
    requires Unhindered(s, id) && Quiet(s, id)
    ensures s.requests[id].AllAcquired()
  {
    var r := s.requests[id];
    forall i | 0 <= i < |r.clusters|
      ensures r.locks[i].Acquired? || (i > 0 && r.locks[i].Idle? && !r.locks[0].Acquired?)
    {
      assert HasTask(s, id, i) && OnItsWay(s.now, s.store, r, i);
      assert !Enabled(s, BuildTemplate(id, i)) && !Enabled(s, Create(id, i, false)) && !Enabled(s, Get(id, i));
    }
    assert r.locks[0].Acquired?;
  }

  /** Bounded blocking: whatever crashes, timeouts and partial locks have left in the stores and
      in other requests, once the leases on its slots have expired a Lock that then runs alone
      and without errors, in any order of its endpoints and with any pauses, takes at most six
      steps per endpoint, is refused nowhere, and when no call is left to make, it has acquired
      everything and can be granted. */
  lemma LoneLockIsGranted(duration: nat, s: State, id: Identity, name: LeaseName, clusters: seq<Cluster>,
                          steps: seq<Step>)
    requires id !in s.requests && 0 < |clusters| && Distinct(clusters)
    requires forall c | c in clusters :: s.store.Free(Slot(c, name), s.now)
    requires
      var begun := Apply(duration, s, Begin(id, name, clusters));
      Valid(duration, begun, steps) && AllAlone(steps, id)
    ensures
      var f := Final(duration, Apply(duration, s, Begin(id, name, clusters)), steps);
      && OwnSteps(steps) <= 6 * |clusters|
      && Unhindered(f, id)
      && (Quiet(f, id) ==> f.requests[id].AllAcquired() && Enabled(f, Grant(id)))
  {
    var begun := Apply(duration, s, Begin(id, name, clusters));
    var r := begun.requests[id];
    forall i | 0 <= i < |clusters|
      ensures OnItsWay(begun.now, begun.store, r, i)
    {
      assert clusters[i] in clusters;
    }
    AloneRun(duration, begun, steps, id);
    LeftsBound(r.locks);
    var f := Final(duration, begun, steps);
    LeftsBound(f.requests[id].locks);
    if Quiet(f, id) {
      QuietMeansAcquired(f, id);
    }
  }
}
