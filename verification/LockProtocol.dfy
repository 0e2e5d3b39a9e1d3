/** The cross-cluster lease lock as a step system.

    Any number of requests run at once.  Every call to an API server, every clock reading
    and the passing of time is a step of its own, so a run is an arbitrary interleaving.
    A request owns one lock task and one unlock task per endpoint; index 0 is the local
    cluster, the others are the remote endpoints in configuration order.  Endpoints may
    lead to the same cluster twice: nothing in the configuration forbids it. */
module LockProtocol {
  import opened Leases

  /** Where a run of LocalLock stands. */
  datatype LockTask =
    | Idle
    | Creating(stamp: Time)                 // template built, Create not answered yet
    | Exists                                // Create answered AlreadyExists
    | Read(seen: Lease)                     // Get answered
    | Expired(seen: Lease)                  // the deadline check let the takeover pass
    | Updating(seen: Lease, stamp: Time)    // new stamp taken, Update not answered yet
    | Acquired(lease: Lease)                // LocalLock returned nil
    | Refused                               // LocalLock returned an error

  /** Where a run of LocalUnlock stands. */
  datatype UnlockTask =
    | Untouched
    | Matched                               // the holder check passed, Delete not done yet
    | Deleted
    | Absent                                // Get answered NotFound
    | Foreign                               // somebody else holds the lease

  /** What the caller of Lock and Unlock knows. */
  datatype Status = Pending | Granted | Failed | Releasing

  datatype Request = Request(
    start: Time,
    name: LeaseName,
    clusters: seq<Cluster>,
    locks: seq<LockTask>,
    unlocks: seq<UnlockTask>,
    status: Status)
  {
    predicate WellShaped() {
      0 < |clusters| == |locks| == |unlocks|
    }

    function At(i: nat): Slot
      requires i < |clusters|
    {
      Slot(clusters[i], name)
    }

    predicate AllAcquired() {
      forall i | 0 <= i < |locks| :: locks[i].Acquired?
    }
  }

  datatype State = State(now: Time, store: Store, requests: map<Identity, Request>)

  datatype Step =
    | Tick(elapsed: nat)
    | Begin(id: Identity, name: LeaseName, clusters: seq<Cluster>)
    // LocalLock
    | BuildTemplate(id: Identity, i: nat)
    | Create(id: Identity, i: nat, lost: bool)    // lost: it took effect, the caller saw an error
    | Get(id: Identity, i: nat)
    | CheckDeadline(id: Identity, i: nat)
    | Restamp(id: Identity, i: nat)
    | Update(id: Identity, i: nat, lost: bool)
    | Abort(id: Identity, i: nat)                 // any API error without effect
    // Lock
    | Grant(id: Identity)
    | Fail(id: Identity)
    // LocalUnlock and Unlock
    | BeginUnlock(id: Identity)
    | UnlockGet(id: Identity, i: nat)
    | UnlockGetError(id: Identity, i: nat)        // neither an answer nor NotFound
    | Delete(id: Identity, i: nat)

  /** A step of one LocalLock or LocalUnlock, rather than of the clock or of the caller. */
  predicate IsTaskWork(step: Step) {
    !step.Tick? && !step.Begin? && !step.Grant? && !step.Fail? && !step.BeginUnlock?
  }

  predicate HasTask(s: State, id: Identity, i: nat) {
    && id in s.requests
    && s.requests[id].WellShaped()
    && i < |s.requests[id].clusters|
  }

  /** The local cluster comes first; remote calls are sent when it has granted its lease,
      and may reach their server after the caller has stopped waiting. */
  predicate Enabled(s: State, step: Step) {
    match step
    case Tick(_) => true
    case Begin(id, _, clusters) => id !in s.requests && 0 < |clusters|
    case BuildTemplate(id, i) =>
      HasTask(s, id, i) && s.requests[id].locks[i].Idle? && (i == 0 || s.requests[id].locks[0].Acquired?)
    case Create(id, i, _) => HasTask(s, id, i) && s.requests[id].locks[i].Creating?
    case Get(id, i) => HasTask(s, id, i) && s.requests[id].locks[i].Exists?
    case CheckDeadline(id, i) => HasTask(s, id, i) && s.requests[id].locks[i].Read?
    case Restamp(id, i) => HasTask(s, id, i) && s.requests[id].locks[i].Expired?
    case Update(id, i, _) => HasTask(s, id, i) && s.requests[id].locks[i].Updating?
    case Abort(id, i) =>
      && HasTask(s, id, i) && !s.requests[id].locks[i].Acquired? && !s.requests[id].locks[i].Refused?
      && (s.requests[id].locks[i].Idle? ==> i == 0 || s.requests[id].locks[0].Acquired?)
    case Grant(id) => HasTask(s, id, 0) && s.requests[id].status.Pending? && s.requests[id].AllAcquired()
    case Fail(id) => HasTask(s, id, 0) && s.requests[id].status.Pending?
    case BeginUnlock(id) => HasTask(s, id, 0) && s.requests[id].status.Granted?
    case UnlockGet(id, i) => MayUnlock(s, id, i)
    case UnlockGetError(id, i) => MayUnlock(s, id, i)
    case Delete(id, i) =>
      HasTask(s, id, i) && s.requests[id].unlocks[i].Matched?
  }

  /** The remote half of Unlock is only reached when the local half returned nil. */
  predicate MayUnlock(s: State, id: Identity, i: nat) {
    && HasTask(s, id, i)
    && s.requests[id].status.Releasing?
    && s.requests[id].unlocks[i].Untouched?
    && (i == 0 || s.requests[id].unlocks[0].Deleted? || s.requests[id].unlocks[0].Absent?)
  }

  function WithLock(s: State, id: Identity, i: nat, task: LockTask): State
    requires HasTask(s, id, i)
  {
    var r := s.requests[id];
    s.(requests := s.requests[id := r.(locks := r.locks[i := task])])
  }

  function WithUnlock(s: State, id: Identity, i: nat, task: UnlockTask): State
    requires HasTask(s, id, i)
  {
    var r := s.requests[id];
    s.(requests := s.requests[id := r.(unlocks := r.unlocks[i := task])])
  }

  function WithStatus(s: State, id: Identity, status: Status): State
    requires id in s.requests
  {
    s.(requests := s.requests[id := s.requests[id].(status := status)])
  }

  /** The task of request id at index i writes its lease with the given stamp and duration. */
  function Acquire(s: State, id: Identity, i: nat, stamp: Time, duration: nat, lost: bool): State
    requires HasTask(s, id, i)
  {
    var slot := s.requests[id].At(i);
    var written := s.store.Write(slot, id, stamp, duration);
    WithLock(s, id, i, if lost then Refused else Acquired(written.leases[slot])).(store := written)
  }

  /** duration is the one a new lease is created with; a takeover keeps the one it finds. */
  function Apply(duration: nat, s: State, step: Step): State
    requires Enabled(s, step)
  {
    match step
    case Tick(elapsed) => s.(now := s.now + elapsed)
    case Begin(id, name, clusters) =>
      var r := Request(s.now, name, clusters,
                       seq(|clusters|, _ => Idle), seq(|clusters|, _ => Untouched), Pending);
      s.(requests := s.requests[id := r])
    case BuildTemplate(id, i) => WithLock(s, id, i, Creating(s.now))
    case Create(id, i, lost) =>
      var r := s.requests[id];
      if r.At(i) in s.store.leases then WithLock(s, id, i, Exists)
      else Acquire(s, id, i, r.locks[i].stamp, duration, lost)
    case Get(id, i) =>
      var slot := s.requests[id].At(i);
      if slot in s.store.leases then WithLock(s, id, i, Read(s.store.leases[slot]))
      else WithLock(s, id, i, Refused)
    case CheckDeadline(id, i) =>
      var seen := s.requests[id].locks[i].seen;
      WithLock(s, id, i, if Live(seen, s.now) then Refused else Expired(seen))
    case Restamp(id, i) => WithLock(s, id, i, Updating(s.requests[id].locks[i].seen, s.now))
    case Update(id, i, lost) =>
      var r := s.requests[id];
      var slot := r.At(i);
      if slot in s.store.leases && s.store.leases[slot].version == r.locks[i].seen.version
      then Acquire(s, id, i, r.locks[i].stamp, r.locks[i].seen.duration, lost)
      else WithLock(s, id, i, Refused)
    case Abort(id, i) => WithLock(s, id, i, Refused)
    case Grant(id) => WithStatus(s, id, Granted)
    case Fail(id) => WithStatus(s, id, Failed)
    case BeginUnlock(id) => WithStatus(s, id, Releasing)
    case UnlockGet(id, i) =>
      var slot := s.requests[id].At(i);
      WithUnlock(s, id, i,
                 if slot !in s.store.leases then Absent
                 else if s.store.leases[slot].holder == id then Matched else Foreign)
    case UnlockGetError(id, i) => WithUnlock(s, id, i, Matched)
    case Delete(id, i) =>
      WithUnlock(s, id, i, Deleted).(store := s.store.Remove(s.requests[id].At(i)))
  }

  /** What safety asks of the environment: a Delete lands before the deadline of the
      unlocker's own lease.  Whether the Get before it was answered does not matter. */
  predicate Timely(s: State, step: Step)
    requires Enabled(s, step)
  {
    step.Delete? ==>
      var task := s.requests[step.id].locks[step.i];
      task.Acquired? && Live(task.lease, s.now)
  }

  // ----- runs

  predicate Valid(duration: nat, s: State, steps: seq<Step>)
    decreases |steps|
  {
    steps == [] || (Enabled(s, steps[0]) && Valid(duration, Apply(duration, s, steps[0]), steps[1..]))
  }

  function Final(duration: nat, s: State, steps: seq<Step>): State
    requires Valid(duration, s, steps)
    decreases |steps|
  {
    if steps == [] then s else Final(duration, Apply(duration, s, steps[0]), steps[1..])
  }

  predicate AllTimely(duration: nat, s: State, steps: seq<Step>)
    requires Valid(duration, s, steps)
    decreases |steps|
  {
    steps == [] ||
    (Timely(s, steps[0]) && AllTimely(duration, Apply(duration, s, steps[0]), steps[1..]))
  }

  /** No request has begun; the stores may hold anything that earlier runs left behind. */
  predicate Initial(s: State) {
    s.requests == map[] && s.store.Sound()
  }

  // ----- invariants

  /** A version names one lease: whoever still finds the version it read finds the same lease. */
  predicate Observed(st: Store, slot: Slot, seen: Lease) {
    && seen.version < st.nextVersion
    && (slot in st.leases && st.leases[slot].version == seen.version ==> st.leases[slot] == seen)
  }

  predicate TaskSound(now: Time, st: Store, id: Identity, r: Request, i: nat)
    requires r.WellShaped() && i < |r.clusters|
  {
    match r.locks[i]
    case Creating(stamp) => r.start <= stamp <= now
    case Read(seen) => Observed(st, r.At(i), seen)
    case Expired(seen) => Observed(st, r.At(i), seen) && !Live(seen, now)
    case Updating(seen, stamp) =>
      Observed(st, r.At(i), seen) && !Live(seen, now) && r.start <= stamp <= now
    case Acquired(lease) =>
      lease.holder == id && r.start <= lease.acquired <= now && lease.version < st.nextVersion
    case _ => true
  }

  predicate RequestSound(now: Time, st: Store, id: Identity, r: Request) {
    && r.WellShaped()
    && r.start <= now
    && (forall i :: 0 <= i < |r.clusters| ==> TaskSound(now, st, id, r, i))
    && (forall i, j :: 0 <= i < j < |r.clusters| && r.locks[i].Acquired? && r.locks[j].Acquired? ==>
          r.locks[i].lease.version != r.locks[j].lease.version)
    && (r.status.Granted? || r.status.Releasing? ==> r.AllAcquired())
    && (!r.status.Releasing? ==> forall i :: 0 <= i < |r.unlocks| ==> r.unlocks[i].Untouched?)
  }

  /** Holds in every reachable state, timely or not. */
  ghost predicate Consistent(s: State) {
    && s.store.Sound()
    && forall id :: id in s.requests ==> RequestSound(s.now, s.store, id, s.requests[id])
  }

  /** A lease that was acquired, is live and was not deleted by its holder is in its store. */
  predicate TaskHeld(now: Time, st: Store, r: Request, i: nat)
    requires r.WellShaped() && i < |r.clusters|
  {
    r.locks[i].Acquired? && Live(r.locks[i].lease, now) && !r.unlocks[i].Deleted? ==>
      r.At(i) in st.leases && st.leases[r.At(i)] == r.locks[i].lease
  }

  /** Holds in every state reached by timely steps. */
  ghost predicate Held(s: State) {
    forall id, i :: HasTask(s, id, i) ==> TaskHeld(s.now, s.store, s.requests[id], i)
  }

  predicate TaskLasts(window: nat, task: LockTask) {
    match task
    case Read(seen) => window <= seen.duration
    case Expired(seen) => window <= seen.duration
    case Updating(seen, _) => window <= seen.duration
    case Acquired(lease) => window <= lease.duration
    case _ => true
  }

  /** Every lease that is stored, was read or was acquired runs for at least this long. */
  ghost predicate Lasting(window: nat, s: State) {
    && s.store.Lasts(window)
    && forall id: Identity, i: nat :: HasTask(s, id, i) ==> TaskLasts(window, s.requests[id].locks[i])
  }

  // ----- preservation of Consistent

  lemma WriteKeepsSound(now: Time, st: Store, slot: Slot, holder: Identity, stamp: Time,
                        duration: nat, id: Identity, r: Request)
    requires RequestSound(now, st, id, r)
    ensures RequestSound(now, st.Write(slot, holder, stamp, duration), id, r)
  {
    forall i | 0 <= i < |r.clusters|
      ensures TaskSound(now, st.Write(slot, holder, stamp, duration), id, r, i)
    {
      assert TaskSound(now, st, id, r, i);
    }
  }

  lemma RemoveKeepsSound(now: Time, st: Store, slot: Slot, id: Identity, r: Request)
    requires RequestSound(now, st, id, r)
    ensures RequestSound(now, st.Remove(slot), id, r)
  {
    forall i | 0 <= i < |r.clusters|
      ensures TaskSound(now, st.Remove(slot), id, r, i)
    {
      assert TaskSound(now, st, id, r, i);
    }
  }

  lemma TickKeepsSound(now: Time, later: Time, st: Store, id: Identity, r: Request)
    requires RequestSound(now, st, id, r) && now <= later
    ensures RequestSound(later, st, id, r)
  {
    forall i | 0 <= i < |r.clusters|
      ensures TaskSound(later, st, id, r, i)
    {
      assert TaskSound(now, st, id, r, i);
    }
  }

  /** A task moves on without touching a store; acquired tasks and their versions stay. */
  lemma MoveKeepsConsistent(s: State, id: Identity, i: nat, task: LockTask)
    requires Consistent(s) && HasTask(s, id, i)
    requires !s.requests[id].locks[i].Acquired? && !task.Acquired?
    requires
      var r := s.requests[id];
      TaskSound(s.now, s.store, id, r.(locks := r.locks[i := task]), i)
    ensures Consistent(WithLock(s, id, i, task))
  {
    var r := s.requests[id];
    var r' := r.(locks := r.locks[i := task]);
    assert RequestSound(s.now, s.store, id, r);
    forall k | 0 <= k < |r'.clusters|
      ensures TaskSound(s.now, s.store, id, r', k)
    {
      assert TaskSound(s.now, s.store, id, r, k);
    }
    assert !r.AllAcquired();
    assert RequestSound(s.now, s.store, id, r');
  }

  lemma AcquireKeepsConsistent(s: State, id: Identity, i: nat, stamp: Time, duration: nat, lost: bool)
    requires Consistent(s) && HasTask(s, id, i)
    requires !s.requests[id].locks[i].Acquired?
    requires s.requests[id].start <= stamp <= s.now
    ensures Consistent(Acquire(s, id, i, stamp, duration, lost))
  {
    var r := s.requests[id];
    var slot := r.At(i);
    var s' := Acquire(s, id, i, stamp, duration, lost);
    var r' := s'.requests[id];
    assert RequestSound(s.now, s.store, id, r);
    assert !r.AllAcquired();
    WriteKeepsSound(s.now, s.store, slot, id, stamp, duration, id, r);
    forall k | 0 <= k < |r'.clusters|
      ensures TaskSound(s.now, s'.store, id, r', k)
    {
      assert TaskSound(s.now, s'.store, id, r, k);
      assert TaskSound(s.now, s.store, id, r, k);
    }
    assert forall k :: 0 <= k < |r.clusters| && r.locks[k].Acquired? ==>
        TaskSound(s.now, s.store, id, r, k) && r.locks[k].lease.version < s.store.nextVersion;
    assert RequestSound(s.now, s'.store, id, r');
    forall q | q in s'.requests
      ensures RequestSound(s'.now, s'.store, q, s'.requests[q])
    {
      if q != id {
        assert RequestSound(s.now, s.store, q, s.requests[q]);
        WriteKeepsSound(s.now, s.store, slot, id, stamp, duration, q, s.requests[q]);
      }
    }
  }

  lemma BeginKeepsConsistent(duration: nat, s: State, step: Step)
    requires Consistent(s) && Enabled(s, step) && step.Begin?
    ensures Consistent(Apply(duration, s, step))
  {
    var s' := Apply(duration, s, step);
    assert RequestSound(s.now, s.store, step.id, s'.requests[step.id]);
  }

  /** Status changes and unlock steps that leave the stores alone. */
  lemma CallerKeepsConsistent(duration: nat, s: State, step: Step)
    requires Consistent(s) && Enabled(s, step)
    requires step.Grant? || step.Fail? || step.BeginUnlock? || step.UnlockGet? || step.UnlockGetError?
    ensures Consistent(Apply(duration, s, step))
  {
    var s' := Apply(duration, s, step);
    var r, r' := s.requests[step.id], s'.requests[step.id];
    assert RequestSound(s.now, s.store, step.id, r);
    forall k | 0 <= k < |r'.clusters|
      ensures TaskSound(s.now, s.store, step.id, r', k)
    {
      assert TaskSound(s.now, s.store, step.id, r, k);
    }
    assert RequestSound(s.now, s.store, step.id, r');
  }

  lemma DeleteKeepsConsistent(duration: nat, s: State, id: Identity, i: nat)
    requires Consistent(s) && Enabled(s, Delete(id, i))
    ensures Consistent(Apply(duration, s, Delete(id, i)))
  {
    var s' := Apply(duration, s, Delete(id, i));
    var slot := s.requests[id].At(i);
    forall q | q in s'.requests
      ensures RequestSound(s'.now, s'.store, q, s'.requests[q])
    {
      var r, r' := s.requests[q], s'.requests[q];
      assert RequestSound(s.now, s.store, q, r);
      RemoveKeepsSound(s.now, s.store, slot, q, r);
      forall k | 0 <= k < |r'.clusters|
        ensures TaskSound(s.now, s'.store, q, r', k)
      {
        assert TaskSound(s.now, s'.store, q, r, k);
      }
    }
  }

  lemma LockStepKeepsConsistent(duration: nat, s: State, step: Step)
    requires Consistent(s) && Enabled(s, step)
    requires step.BuildTemplate? || step.Create? || step.Get? || step.CheckDeadline? || step.Restamp?
             || step.Update? || step.Abort?
    ensures Consistent(Apply(duration, s, step))
  {
    var id, i := step.id, step.i;
    var r := s.requests[id];
    assert RequestSound(s.now, s.store, id, r);
    assert TaskSound(s.now, s.store, id, r, i);
    if !step.Abort? && Apply(duration, s, step).store != s.store {
      var term := if step.Create? then duration else r.locks[i].seen.duration;
      AcquireKeepsConsistent(s, id, i, r.locks[i].stamp, term, step.lost);
    } else {
      MoveKeepsConsistent(s, id, i, Apply(duration, s, step).requests[id].locks[i]);
      assert Apply(duration, s, step) == WithLock(s, id, i, Apply(duration, s, step).requests[id].locks[i]);
    }
  }

  lemma StepKeepsConsistent(duration: nat, s: State, step: Step)
    requires Consistent(s) && Enabled(s, step)
    ensures Consistent(Apply(duration, s, step))
  {
    match step
    case Tick(elapsed) =>
      forall id | id in s.requests
        ensures RequestSound(s.now + elapsed, s.store, id, s.requests[id])
      {
        assert RequestSound(s.now, s.store, id, s.requests[id]);
        TickKeepsSound(s.now, s.now + elapsed, s.store, id, s.requests[id]);
      }
    case Begin(_, _, _) => BeginKeepsConsistent(duration, s, step);
    case Grant(_) => CallerKeepsConsistent(duration, s, step);
    case Fail(_) => CallerKeepsConsistent(duration, s, step);
    case BeginUnlock(_) => CallerKeepsConsistent(duration, s, step);
    case UnlockGet(_, _) => CallerKeepsConsistent(duration, s, step);
    case UnlockGetError(_, _) => CallerKeepsConsistent(duration, s, step);
    case Delete(id, i) => DeleteKeepsConsistent(duration, s, id, i);
    case _ => LockStepKeepsConsistent(duration, s, step);
  }

  // ----- live leases and preservation of Held

  /** Only a Delete on the slot itself removes or replaces a live lease, whoever holds it and
      however badly timed the other requests are. */
  lemma LiveLeaseSurvivesStep(duration: nat, s: State, step: Step, slot: Slot)
    requires Consistent(s) && Enabled(s, step)
    requires slot in s.store.leases && Live(s.store.leases[slot], s.now)
    requires step.Delete? ==> s.requests[step.id].At(step.i) != slot
    ensures slot in Apply(duration, s, step).store.leases
    ensures Apply(duration, s, step).store.leases[slot] == s.store.leases[slot]
  {
    if step.Update? {
      assert RequestSound(s.now, s.store, step.id, s.requests[step.id]);
      assert TaskSound(s.now, s.store, step.id, s.requests[step.id], step.i);
    }
  }

  /** A timely Delete finds the unlocker's own lease in the store. */
  lemma TimelyDeleteFindsOwnLease(s: State, id: Identity, i: nat)
    requires Consistent(s) && Held(s)
    requires Enabled(s, Delete(id, i)) && Timely(s, Delete(id, i))
    ensures s.requests[id].At(i) in s.store.leases
    ensures s.store.leases[s.requests[id].At(i)] == s.requests[id].locks[i].lease
    ensures s.store.leases[s.requests[id].At(i)].holder == id
  {
    assert TaskHeld(s.now, s.store, s.requests[id], i);
    assert RequestSound(s.now, s.store, id, s.requests[id]);
    assert TaskSound(s.now, s.store, id, s.requests[id], i);
  }

  /** Two tasks never hold the same lease. */
  lemma LeasesHaveOneOwner(s: State, a: Identity, i: nat, b: Identity, j: nat)
    requires Consistent(s) && HasTask(s, a, i) && HasTask(s, b, j)
    requires s.requests[a].locks[i].Acquired? && s.requests[b].locks[j].Acquired?
    requires s.requests[a].locks[i].lease == s.requests[b].locks[j].lease
    ensures a == b && i == j
  {
    assert RequestSound(s.now, s.store, a, s.requests[a]);
    assert TaskSound(s.now, s.store, a, s.requests[a], i);
    assert RequestSound(s.now, s.store, b, s.requests[b]);
    assert TaskSound(s.now, s.store, b, s.requests[b], j);
  }

  lemma TimelyDeleteSparesOthers(s: State, step: Step, id: Identity, i: nat)
    requires Consistent(s) && Held(s)
    requires step.Delete? && Enabled(s, step) && Timely(s, step)
    requires HasTask(s, id, i) && (id != step.id || i != step.i)
    requires s.requests[id].locks[i].Acquired? && !s.requests[id].unlocks[i].Deleted?
    requires Live(s.requests[id].locks[i].lease, s.now)
    ensures s.requests[id].At(i) != s.requests[step.id].At(step.i)
  {
    if s.requests[id].At(i) == s.requests[step.id].At(step.i) {
      TimelyDeleteFindsOwnLease(s, step.id, step.i);
      assert TaskHeld(s.now, s.store, s.requests[id], i);
      LeasesHaveOneOwner(s, id, i, step.id, step.i);
    }
  }

  /** A task keeps its lease, or has just written it, or is no claimant. */
  lemma TaskChange(duration: nat, s: State, step: Step, id: Identity, i: nat)
    requires Enabled(s, step) && HasTask(Apply(duration, s, step), id, i)
    ensures
      var s' := Apply(duration, s, step);
      var r' := s'.requests[id];
      r'.locks[i].Acquired? ==>
        || (r'.At(i) in s'.store.leases && s'.store.leases[r'.At(i)] == r'.locks[i].lease)
        || (&& HasTask(s, id, i) && s.requests[id].locks[i] == r'.locks[i] && s.requests[id].At(i) == r'.At(i)
            && s.now <= s'.now
            && (s.requests[id].unlocks[i].Deleted? ==> r'.unlocks[i].Deleted?)
            && (step.Delete? && step.id == id && step.i == i ==> r'.unlocks[i].Deleted?))
  {
  }

  lemma StepKeepsTaskHeld(duration: nat, s: State, step: Step, id: Identity, i: nat)
    requires Consistent(s) && Held(s)
    requires Enabled(s, step) && Timely(s, step)
    requires HasTask(Apply(duration, s, step), id, i)
    ensures TaskHeld(Apply(duration, s, step).now, Apply(duration, s, step).store,
                     Apply(duration, s, step).requests[id], i)
  {
    var s' := Apply(duration, s, step);
    var r' := s'.requests[id];
    TaskChange(duration, s, step, id, i);
    if r'.locks[i].Acquired? && Live(r'.locks[i].lease, s'.now) && !r'.unlocks[i].Deleted?
       && !(r'.At(i) in s'.store.leases && s'.store.leases[r'.At(i)] == r'.locks[i].lease) {
      assert TaskHeld(s.now, s.store, s.requests[id], i);
      if step.Delete? {
        TimelyDeleteSparesOthers(s, step, id, i);
      }
      LiveLeaseSurvivesStep(duration, s, step, r'.At(i));
      assert false;
    }
  }

  lemma StepKeepsHeld(duration: nat, s: State, step: Step)
    requires Consistent(s) && Held(s)
    requires Enabled(s, step) && Timely(s, step)
    ensures Held(Apply(duration, s, step))
  {
    var s' := Apply(duration, s, step);
    forall id, i | HasTask(s', id, i)
      ensures TaskHeld(s'.now, s'.store, s'.requests[id], i)
    {
      StepKeepsTaskHeld(duration, s, step, id, i);
    }
  }

  // ----- preservation of Lasting

  /** Only an earlier lease can make a lease shorter than the template says. */
  lemma StepKeepsLasting(window: nat, duration: nat, s: State, step: Step)
    requires Lasting(window, s) && Enabled(s, step) && window <= duration
    ensures Lasting(window, Apply(duration, s, step))
  {
    var s' := Apply(duration, s, step);
    StoreKeepsLasting(window, duration, s, step);
    forall id: Identity, i: nat | HasTask(s', id, i)
      ensures TaskLasts(window, s'.requests[id].locks[i])
    {
      TaskKeepsLasting(window, duration, s, step, id, i);
    }
  }

  lemma StoreKeepsLasting(window: nat, duration: nat, s: State, step: Step)
    requires Lasting(window, s) && Enabled(s, step) && window <= duration
    ensures Apply(duration, s, step).store.Lasts(window)
  {
    if step.Update? {
      assert TaskLasts(window, s.requests[step.id].locks[step.i]);
    }
  }

  lemma TaskKeepsLasting(window: nat, duration: nat, s: State, step: Step, id: Identity, i: nat)
    requires Lasting(window, s) && Enabled(s, step) && window <= duration && HasTask(Apply(duration, s, step), id, i)
    ensures TaskLasts(window, Apply(duration, s, step).requests[id].locks[i])
  {
    assert HasTask(s, id, i) ==> TaskLasts(window, s.requests[id].locks[i]);
  }

  // ----- whole runs

  lemma {:induction false} RunKeepsLasting(window: nat, duration: nat, s: State, steps: seq<Step>)
    requires Lasting(window, s) && Valid(duration, s, steps) && window <= duration
    ensures Lasting(window, Final(duration, s, steps))
    decreases |steps|
  {
    if steps != [] {
      StepKeepsLasting(window, duration, s, steps[0]);
      RunKeepsLasting(window, duration, Apply(duration, s, steps[0]), steps[1..]);
    }
  }

  lemma {:induction false} RunKeepsConsistent(duration: nat, s: State, steps: seq<Step>)
    requires Consistent(s) && Valid(duration, s, steps)
    ensures Consistent(Final(duration, s, steps))
    decreases |steps|
  {
    if steps != [] {
      StepKeepsConsistent(duration, s, steps[0]);
      RunKeepsConsistent(duration, Apply(duration, s, steps[0]), steps[1..]);
    }
  }

  lemma {:induction false} RunKeepsHeld(duration: nat, s: State, steps: seq<Step>)
    requires Consistent(s) && Held(s)
    requires Valid(duration, s, steps) && AllTimely(duration, s, steps)
    ensures Consistent(Final(duration, s, steps)) && Held(Final(duration, s, steps))
    decreases |steps|
  {
    if steps != [] {
      StepKeepsConsistent(duration, s, steps[0]);
      StepKeepsHeld(duration, s, steps[0]);
      RunKeepsHeld(duration, Apply(duration, s, steps[0]), steps[1..]);
    }
  }

  // ----- main results

  /** Lock has returned success, all its leases were acquired less than this window ago, and
      the lease at endpoint i was not given back. */
  predicate Protected(window: nat, s: State, id: Identity, i: nat) {
    && HasTask(s, id, i)
    && (s.requests[id].status.Granted? || s.requests[id].status.Releasing?)
    && (forall k | 0 <= k < |s.requests[id].locks| ::
          s.requests[id].locks[k].Acquired? && s.now < s.requests[id].locks[k].lease.acquired + window)
    && !s.requests[id].unlocks[i].Deleted?
  }

  lemma ProtectedIsHeld(window: nat, s: State, id: Identity, i: nat)
    requires Held(s) && Lasting(window, s) && Protected(window, s, id, i)
    ensures s.requests[id].At(i) in s.store.leases
    ensures s.store.leases[s.requests[id].At(i)] == s.requests[id].locks[i].lease
  {
    assert TaskHeld(s.now, s.store, s.requests[id], i);
    assert TaskLasts(window, s.requests[id].locks[i]);
  }

  lemma ProtectedSlotsAreDisjoint(window: nat, s: State, a: Identity, i: nat, b: Identity, j: nat)
    requires Consistent(s) && Held(s) && Lasting(window, s)
    requires Protected(window, s, a, i) && Protected(window, s, b, j)
    requires s.requests[a].At(i) == s.requests[b].At(j)
    ensures a == b && i == j
  {
    ProtectedIsHeld(window, s, a, i);
    ProtectedIsHeld(window, s, b, j);
    LeasesHaveOneOwner(s, a, i, b, j);
  }

  /** Mutual exclusion over every timely run, from any leftover leases that do not run shorter
      than new ones. */
  lemma MutualExclusion(duration: nat, s: State, steps: seq<Step>, a: Identity, i: nat, b: Identity, j: nat)
    requires Initial(s) && s.store.Lasts(duration)
    requires Valid(duration, s, steps) && AllTimely(duration, s, steps)
    requires
      var f := Final(duration, s, steps);
      && Protected(duration, f, a, i) && Protected(duration, f, b, j)
      && f.requests[a].At(i) == f.requests[b].At(j)
    ensures a == b && i == j
  {
    RunKeepsHeld(duration, s, steps);
    RunKeepsLasting(duration, duration, s, steps);
    ProtectedSlotsAreDisjoint(duration, Final(duration, s, steps), a, i, b, j);
  }

  /** A Lock that has succeeded within the lease duration has reached pairwise distinct
      clusters: no endpoint leads to the local cluster or to another endpoint's cluster. */
  lemma GrantedEndpointsAreDistinct(duration: nat, s: State, steps: seq<Step>, id: Identity)
    requires Initial(s) && s.store.Lasts(duration)
    requires Valid(duration, s, steps) && AllTimely(duration, s, steps)
    requires id in Final(duration, s, steps).requests
    requires
      var f := Final(duration, s, steps);
      f.requests[id].status.Granted? && f.now < f.requests[id].start + duration
    ensures
      var clusters := Final(duration, s, steps).requests[id].clusters;
      forall i, j | 0 <= i < j < |clusters| :: clusters[i] != clusters[j]
  {
    RunKeepsHeld(duration, s, steps);
    RunKeepsLasting(duration, duration, s, steps);
    DistinctWhileGranted(duration, Final(duration, s, steps), id);
  }

  lemma DistinctWhileGranted(window: nat, s: State, id: Identity)
    requires Consistent(s) && Held(s) && Lasting(window, s)
    requires id in s.requests && s.requests[id].status.Granted? && s.now < s.requests[id].start + window
    ensures forall i :: 0 <= i < |s.requests[id].clusters| ==> Protected(window, s, id, i)
    ensures forall i, j :: 0 <= i < j < |s.requests[id].clusters| ==>
              s.requests[id].clusters[i] != s.requests[id].clusters[j]
  {
    var r := s.requests[id];
    assert RequestSound(s.now, s.store, id, r);
    forall k | 0 <= k < |r.clusters|
      ensures r.locks[k].Acquired? && s.now < r.locks[k].lease.acquired + window
    {
      assert TaskSound(s.now, s.store, id, r, k);
    }
    forall i, j | 0 <= i < j < |r.clusters|
      ensures r.clusters[i] != r.clusters[j]
    {
      assert Protected(window, s, id, i) && Protected(window, s, id, j);
      if r.clusters[i] == r.clusters[j] {
        ProtectedSlotsAreDisjoint(window, s, id, i, id, j);
      }
    }
  }

  /** Unlocking takes nothing from anybody else: every lease of every other holder is still
      there, live or not. */
  lemma UnlockKeepsForeignLeases(duration: nat, s: State, steps: seq<Step>, id: Identity, i: nat, slot: Slot)
    requires Initial(s) && Valid(duration, s, steps) && AllTimely(duration, s, steps)
    requires
      var f := Final(duration, s, steps);
      && Enabled(f, Delete(id, i)) && Timely(f, Delete(id, i))
      && slot in f.store.leases && f.store.leases[slot].holder != id
    ensures
      var f := Final(duration, s, steps);
      var f' := Apply(duration, f, Delete(id, i));
      slot in f'.store.leases && f'.store.leases[slot] == f.store.leases[slot]
  {
    RunKeepsHeld(duration, s, steps);
    TimelyDeleteFindsOwnLease(Final(duration, s, steps), id, i);
  }

  /** The step is a Delete on the slot. */
  predicate Deletes(s: State, step: Step, slot: Slot)
    requires Enabled(s, step)
  {
    step.Delete? && s.requests[step.id].At(step.i) == slot
  }

  predicate NeverDeletes(duration: nat, s: State, steps: seq<Step>, slot: Slot)
    requires Valid(duration, s, steps)
    decreases |steps|
  {
    steps == [] ||
    (!Deletes(s, steps[0], slot) && NeverDeletes(duration, Apply(duration, s, steps[0]), steps[1..], slot))
  }

  lemma {:induction false} TimeOnlyAdvances(duration: nat, s: State, steps: seq<Step>)
    requires Valid(duration, s, steps)
    ensures s.now <= Final(duration, s, steps).now
    decreases |steps|
  {
    if steps != [] {
      TimeOnlyAdvances(duration, Apply(duration, s, steps[0]), steps[1..]);
    }
  }

  /** One winner per lease generation: once a lease is written, no other LocalLock wins the
      slot until that lease is deleted or reaches its deadline.  Needs no timeliness. */
  lemma {:induction false} LeaseStaysUntilDeadline(duration: nat, s: State, steps: seq<Step>, slot: Slot)
    requires Consistent(s) && Valid(duration, s, steps)
    requires slot in s.store.leases && NeverDeletes(duration, s, steps, slot)
    requires Live(s.store.leases[slot], Final(duration, s, steps).now)
    ensures slot in Final(duration, s, steps).store.leases
    ensures Final(duration, s, steps).store.leases[slot] == s.store.leases[slot]
    decreases |steps|
  {
    if steps != [] {
      TimeOnlyAdvances(duration, s, steps);
      LiveLeaseSurvivesStep(duration, s, steps[0], slot);
      StepKeepsConsistent(duration, s, steps[0]);
      LeaseStaysUntilDeadline(duration, Apply(duration, s, steps[0]), steps[1..], slot);
    }
  }

  /** The step makes the task of id at index i the holder of its slot. */
  predicate Wins(duration: nat, s: State, step: Step, id: Identity, i: nat)
    requires Enabled(s, step)
  {
    && HasTask(s, id, i)
    && !s.requests[id].locks[i].Acquired?
    && Apply(duration, s, step).requests[id].locks[i].Acquired?
  }

  lemma WinnerWrites(duration: nat, s: State, step: Step, id: Identity, i: nat)
    requires Enabled(s, step) && Wins(duration, s, step, id, i)
    ensures
      var s' := Apply(duration, s, step);
      var slot := s.requests[id].At(i);
      && HasTask(s', id, i) && s'.requests[id].locks[i].Acquired?
      && slot in s'.store.leases && s'.store.leases[slot] == s'.requests[id].locks[i].lease
      && s'.store.leases[slot].version == s.store.nextVersion
      && s'.store.leases[slot].holder == id
  {
  }

  /** From s on: step first makes (a, i) the holder of its slot, the steps between do not
      delete that lease, and then step second makes (b, j) the holder of the same slot. */
  predicate WonAgain(duration: nat, s: State, first: Step, between: seq<Step>, second: Step,
                     a: Identity, i: nat, b: Identity, j: nat)
  {
    && Enabled(s, first) && Wins(duration, s, first, a, i)
    && var s2 := Apply(duration, s, first);
    && Valid(duration, s2, between) && NeverDeletes(duration, s2, between, s.requests[a].At(i))
    && var s3 := Final(duration, s2, between);
    && Enabled(s3, second) && Wins(duration, s3, second, b, j)
    && s3.requests[b].At(j) == s.requests[a].At(i)
  }

  lemma SecondWinnerWaits(duration: nat, s: State, first: Step, between: seq<Step>, second: Step,
                          a: Identity, i: nat, b: Identity, j: nat)
    requires Consistent(s) && WonAgain(duration, s, first, between, second, a, i, b, j)
    ensures
      var s2 := Apply(duration, s, first);
      && HasTask(s2, a, i) && s2.requests[a].locks[i].Acquired?
      && !Live(s2.requests[a].locks[i].lease, Final(duration, s2, between).now)
  {
    WinnerWrites(duration, s, first, a, i);
    StepKeepsConsistent(duration, s, first);
    WonOnlyIfExpired(duration, Apply(duration, s, first), between, second, s.requests[a].At(i), b, j);
  }

  lemma WonOnlyIfExpired(duration: nat, s: State, steps: seq<Step>, step: Step, slot: Slot, b: Identity, j: nat)
    requires Consistent(s) && Valid(duration, s, steps) && NeverDeletes(duration, s, steps, slot)
    requires slot in s.store.leases
    requires
      var f := Final(duration, s, steps);
      Enabled(f, step) && Wins(duration, f, step, b, j) && f.requests[b].At(j) == slot
    ensures !Live(s.store.leases[slot], Final(duration, s, steps).now)
  {
    RunKeepsConsistent(duration, s, steps);
    if Live(s.store.leases[slot], Final(duration, s, steps).now) {
      LeaseStaysUntilDeadline(duration, s, steps, slot);
      NobodyWinsLiveSlot(duration, Final(duration, s, steps), step, b, j);
    }
  }

  lemma NobodyWinsLiveSlot(duration: nat, s: State, step: Step, id: Identity, i: nat)
    requires Consistent(s) && Enabled(s, step) && Wins(duration, s, step, id, i)
    ensures s.requests[id].At(i) in s.store.leases ==>
              !Live(s.store.leases[s.requests[id].At(i)], s.now)
  {
    var slot := s.requests[id].At(i);
    WinnerWrites(duration, s, step, id, i);
    if slot in s.store.leases && Live(s.store.leases[slot], s.now) {
      LiveLeaseSurvivesStep(duration, s, step, slot);
      assert false;
    }
  }

  /** At most one winner per lease generation, over every run: a slot that was won is won
      again only when the winner's lease has reached its deadline or was deleted. */
  lemma AtMostOneWinner(duration: nat, s: State, before: seq<Step>, first: Step, between: seq<Step>, second: Step,
                        a: Identity, i: nat, b: Identity, j: nat)
    requires Initial(s) && Valid(duration, s, before)
    requires WonAgain(duration, Final(duration, s, before), first, between, second, a, i, b, j)
    ensures
      var s2 := Apply(duration, Final(duration, s, before), first);
      && HasTask(s2, a, i) && s2.requests[a].locks[i].Acquired?
      && !Live(s2.requests[a].locks[i].lease, Final(duration, s2, between).now)
  {
    RunKeepsConsistent(duration, s, before);
    SecondWinnerWaits(duration, Final(duration, s, before), first, between, second, a, i, b, j);
  }
}
