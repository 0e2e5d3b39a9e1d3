/** Building runs of the handlers step by step, and the run of a request that goes through the
    whole handler on its own, on any mesh: it arrives, locks every endpoint, collects every
    list, is cleared and admitted, and its eviction takes effect. */
module Handling {
  import opened Leases
  import opened Sums
  import opened Budget
  import LP = LockProtocol
  import Runs
  import opened Admission

  /** The clauses of Assumed, by the kind of step that each of them is about. */
  datatype Clause = Visible | Covering | TimelyUnlock | FreshSnapshot | NoLosses

  predicate Concerns(clause: Clause, step: Step) {
    match clause
    case Visible => step.Tick?
    case Covering => step.Arrive?
    case TimelyUnlock => step.LockWork?
    case FreshSnapshot => step.Collect?
    case NoLosses => step.Lose?
  }

  /** What is asked of a run: all assumptions but one that may be waived, and if it is closed,
      that no pod comes, recovers or gets lost. */
  datatype Rules = Rules(waived: Option<Clause>, closed: bool)

  const FAIR: Rules := Rules(None, false)

  predicate Allows(cfg: Config, rules: Rules, s: State, step: Step)
    requires cfg.WellFormed() && Enabled(cfg, s, step)
  {
    && ((rules.waived.Some? && Concerns(rules.waived.value, step)) || Assumed(cfg, s, step))
    && (rules.closed ==> !IsPodStep(step))
  }

  predicate Allowed(cfg: Config, rules: Rules, s: State, steps: seq<Step>)
    requires cfg.WellFormed() && Valid(cfg, s, steps)
    decreases |steps|
  {
    steps == [] ||
    (Allows(cfg, rules, s, steps[0]) && Allowed(cfg, rules, Apply(cfg, s, steps[0]), steps[1..]))
  }

  lemma {:induction false} AllowedIsAssumed(cfg: Config, rules: Rules, s: State, steps: seq<Step>)
    requires cfg.WellFormed() && Valid(cfg, s, steps) && Allowed(cfg, rules, s, steps) && rules.waived.None?
    ensures AllAssumed(cfg, s, steps)
    decreases |steps|
  {
    if steps != [] {
      AllowedIsAssumed(cfg, rules, Apply(cfg, s, steps[0]), steps[1..]);
    }
  }

  ghost predicate Reaches(cfg: Config, rules: Rules, s: State, t: State)
    requires cfg.WellFormed()
  {
    exists steps :: Valid(cfg, s, steps) && Allowed(cfg, rules, s, steps) && Final(cfg, s, steps) == t
  }

  lemma ReachesSelf(cfg: Config, rules: Rules, s: State)
    requires cfg.WellFormed()
    ensures Reaches(cfg, rules, s, s)
  {
    assert Valid(cfg, s, []) && Allowed(cfg, rules, s, []) && Final(cfg, s, []) == s;
  }

  lemma {:induction false} Append(cfg: Config, rules: Rules, s: State, steps: seq<Step>, step: Step)
    requires cfg.WellFormed() && Valid(cfg, s, steps) && Allowed(cfg, rules, s, steps)
    requires Enabled(cfg, Final(cfg, s, steps), step) && Allows(cfg, rules, Final(cfg, s, steps), step)
    ensures Valid(cfg, s, steps + [step]) && Allowed(cfg, rules, s, steps + [step])
    ensures Final(cfg, s, steps + [step]) == Apply(cfg, Final(cfg, s, steps), step)
    decreases |steps|
  {
    if steps == [] {
      assert [step][1..] == [];
    } else {
      assert (steps + [step])[1..] == steps[1..] + [step];
      Append(cfg, rules, Apply(cfg, s, steps[0]), steps[1..], step);
    }
  }

  lemma ReachesNext(cfg: Config, rules: Rules, s: State, t: State, step: Step)
    requires cfg.WellFormed() && Reaches(cfg, rules, s, t) && Enabled(cfg, t, step) && Allows(cfg, rules, t, step)
    ensures Reaches(cfg, rules, s, Apply(cfg, t, step))
  {
    var steps :| Valid(cfg, s, steps) && Allowed(cfg, rules, s, steps) && Final(cfg, s, steps) == t;
    Append(cfg, rules, s, steps, step);
  }

  // ----- lock work

  /** Steps of single calls, timely ones, are steps of the whole as well. */
  lemma {:induction false} LiftsSteps(cfg: Config, rules: Rules, s: State, t: State, works: seq<LP.Step>)
    requires cfg.WellFormed() && Reaches(cfg, rules, s, t)
    requires LP.Valid(cfg.duration, t.lock, works) && Runs.Allowed(cfg.duration, Runs.WORKING, t.lock, works)
    ensures Reaches(cfg, rules, s, t.(lock := LP.Final(cfg.duration, t.lock, works)))
    decreases |works|
  {
    if works == [] {
      assert t.(lock := t.lock) == t;
    } else {
      assert works[0] in works;
      ReachesNext(cfg, rules, s, t, LockWork(works[0]));
      LiftsSteps(cfg, rules, s, Apply(cfg, t, LockWork(works[0])), works[1..]);
    }
  }

  lemma Lifts(cfg: Config, rules: Rules, s: State, t: State, lock: LP.State)
    requires cfg.WellFormed() && Reaches(cfg, rules, s, t)
    requires Runs.Reaches(cfg.duration, Runs.WORKING, t.lock, lock)
    ensures Reaches(cfg, rules, s, t.(lock := lock))
  {
    var works :| LP.Valid(cfg.duration, t.lock, works) && LP.Final(cfg.duration, t.lock, works) == lock
                 && Runs.Allowed(cfg.duration, Runs.WORKING, t.lock, works);
    LiftsSteps(cfg, rules, s, t, works);
  }

  // ----- a request on its own

  /** What a request is about: the eviction of a pod, with the endpoints it asks. */
  datatype Ask = Ask(id: Identity, budget: Key, pod: PodId, ready: bool, clusters: seq<Cluster>)

  function SlotFor(cfg: Config, a: Ask, c: Cluster): Slot
    requires a.budget in cfg.names
  {
    Slot(c, cfg.names[a.budget])
  }

  /** The request may arrive, finds all its slots free, and breaks none but the waived clause. */
  predicate MayAsk(cfg: Config, rules: Rules, t: State, a: Ask)
    requires cfg.WellFormed()
  {
    && a.id !in t.requests && a.id !in t.lock.requests && 0 < |a.clusters| && Distinct(a.clusters)
    && a.pod in t.pods && t.pods[a.pod].budgets == {a.budget} && a.budget in cfg.specs
    && t.pods[a.pod].cluster == a.clusters[0]
    && (forall c | c in a.clusters :: c in cfg.clusters && t.lock.store.Free(SlotFor(cfg, a, c), t.lock.now))
    && (rules.waived == Some(Covering) || Members(a.clusters) == cfg.clusters)
    && (rules.waived == Some(FreshSnapshot) || (Counts(t.pods[a.pod], a.budget) ==> a.ready))
  }

  /** All other requests are as they were, and so are the pods and the time. */
  predicate SameOthers(t: State, u: State, id: Identity) {
    && u.lock.now == t.lock.now && u.pods == t.pods
    && u.requests.Keys == t.requests.Keys + {id} && u.lock.requests.Keys == t.lock.requests.Keys + {id}
    && (forall q | q in t.requests && q != id :: u.requests[q] == t.requests[q])
    && (forall q | q in t.lock.requests && q != id :: u.lock.requests[q] == t.lock.requests[q])
  }

  /** The lock request of a, begun at the time of t. */
  predicate OwnCall(cfg: Config, t: State, l: LP.Request, a: Ask, status: LP.Status) {
    && a.budget in cfg.names && l.WellShaped() && l.start == t.lock.now && l.name == cfg.names[a.budget]
    && l.clusters == a.clusters && l.status == status
    && forall i | 0 <= i < |l.unlocks| :: l.unlocks[i].Untouched?
  }

  /** What a asks for; it has read the lists from this index on. */
  predicate OwnAsk(t: State, r: Request, a: Ask, from: nat, phase: Phase) {
    && r.budget == a.budget && r.candidate == a.pod && r.snapshotReady == a.ready && r.phase == phase
    && |r.counted| == |a.clusters|
    && forall i | 0 <= i < |a.clusters| ::
         r.counted[i] == if from <= i then Some(HealthyAt(t.pods, a.budget, a.clusters[i])) else None
  }

  /** The request holds a new lease on each of its slots; the other slots are as they were. */
  ghost predicate Leased(cfg: Config, t: State, u: State, a: Ask)
    requires a.budget in cfg.names
  {
    && (forall c | c in a.clusters :: Runs.HeldAnew(cfg.duration, t.lock, u.lock, a.id, SlotFor(cfg, a, c)))
    && (forall slot: Slot | slot.cluster !in a.clusters || slot.name != cfg.names[a.budget] ::
          Runs.SameSlot(t.lock.store, u.lock.store, slot))
  }

  /** Since t, request a has come this far, and nothing but it and its slots has changed. */
  ghost predicate Stands(cfg: Config, t: State, u: State, a: Ask, from: nat, phase: Phase, status: LP.Status) {
    && SameOthers(t, u, a.id)
    && OwnCall(cfg, t, u.lock.requests[a.id], a, status) && u.lock.requests[a.id].AllAcquired()
    && OwnAsk(t, u.requests[a.id], a, from, phase)
    && Leased(cfg, t, u, a)
  }

  function Arrived(cfg: Config, t: State, a: Ask): State
    requires a.budget in cfg.names && 0 < |a.clusters| && a.id !in t.lock.requests
  {
    AfterArrive(cfg, t, a.id, a.budget, a.pod, a.ready, a.clusters)
  }

  lemma Arrives(cfg: Config, rules: Rules, s: State, t: State, a: Ask)
    requires cfg.WellFormed() && Reaches(cfg, rules, s, t) && MayAsk(cfg, rules, t, a)
    ensures Reaches(cfg, rules, s, Arrived(cfg, t, a))
  {
    ReachesNext(cfg, rules, s, t, Arrive(a.id, a.budget, a.pod, a.ready, a.clusters));
  }

  lemma ArrivedIsFresh(cfg: Config, rules: Rules, t: State, a: Ask)
    requires cfg.WellFormed() && MayAsk(cfg, rules, t, a)
    ensures Runs.Fresh(Arrived(cfg, t, a).lock, a.id)
  {
    var b := Arrived(cfg, t, a).lock;
    forall i | 0 <= i < |a.clusters|
      ensures b.requests[a.id].locks[i].Idle? && b.store.Free(b.requests[a.id].At(i), b.now)
    {
      assert a.clusters[i] in a.clusters;
    }
  }

  /** From the lock machine's point of view to the whole. */
  lemma LockedStands(cfg: Config, t: State, a: Ask, lock: LP.State)
    requires a.budget in cfg.names && 0 < |a.clusters| && a.id !in t.lock.requests
    requires Runs.Locked(cfg.duration, Arrived(cfg, t, a).lock, lock, a.id, |a.clusters|)
    ensures Stands(cfg, t, Arrived(cfg, t, a).(lock := lock), a, |a.clusters|, Locking, LP.Pending)
  {
    var b := Arrived(cfg, t, a).lock;
    var r := b.requests[a.id];
    forall c | c in a.clusters
      ensures Runs.HeldAnew(cfg.duration, t.lock, lock, a.id, SlotFor(cfg, a, c))
    {
      var i :| 0 <= i < |a.clusters| && a.clusters[i] == c;
      assert Runs.HeldAnew(cfg.duration, b, lock, a.id, r.At(i));
    }
    forall slot: Slot | slot.cluster !in a.clusters || slot.name != cfg.names[a.budget]
      ensures Runs.SameSlot(t.lock.store, lock.store, slot)
    {
      assert slot !in Runs.SlotsUpTo(r, |a.clusters|);
    }
  }

  lemma Locks(cfg: Config, rules: Rules, s: State, t: State, a: Ask) returns (u: State)
    requires cfg.WellFormed() && Reaches(cfg, rules, s, t) && MayAsk(cfg, rules, t, a)
    ensures Reaches(cfg, rules, s, u) && Stands(cfg, t, u, a, |a.clusters|, Locking, LP.Pending)
  {
    var b := Arrived(cfg, t, a);
    Arrives(cfg, rules, s, t, a);
    ArrivedIsFresh(cfg, rules, t, a);
    Runs.ReachesSelf(cfg.duration, Runs.WORKING, b.lock);
    var lock := Runs.LocksAll(cfg.duration, Runs.WORKING, b.lock, b.lock, a.id);
    Lifts(cfg, rules, s, b, lock);
    LockedStands(cfg, t, a, lock);
    u := b.(lock := lock);
  }

  lemma GrantMoves(cfg: Config, t: State, u: State, a: Ask)
    requires 0 < |a.clusters| && Stands(cfg, t, u, a, |a.clusters|, Locking, LP.Pending)
    ensures InPhase(u, a.id, Locking) && LP.Enabled(u.lock, LP.Grant(a.id))
    ensures Stands(cfg, t, AfterLock(cfg, u, a.id, true), a, |a.clusters|, Collecting, LP.Granted)
  {
    var u' := AfterLock(cfg, u, a.id, true);
    assert u'.lock.store == u.lock.store;
    assert SameOthers(t, u', a.id) && OwnAsk(t, u'.requests[a.id], a, |a.clusters|, Collecting);
  }

  lemma ReachesGranted(cfg: Config, rules: Rules, s: State, u: State, id: Identity)
    requires cfg.WellFormed() && Reaches(cfg, rules, s, u)
    requires InPhase(u, id, Locking) && LP.Enabled(u.lock, LP.Grant(id))
    ensures Reaches(cfg, rules, s, AfterLock(cfg, u, id, true))
  {
    ReachesNext(cfg, rules, s, u, LockReturns(id, true));
  }

  lemma IsGranted(cfg: Config, rules: Rules, s: State, t: State, u: State, a: Ask) returns (u': State)
    requires cfg.WellFormed() && Reaches(cfg, rules, s, u) && 0 < |a.clusters|
    requires Stands(cfg, t, u, a, |a.clusters|, Locking, LP.Pending)
    ensures Reaches(cfg, rules, s, u') && Stands(cfg, t, u', a, |a.clusters|, Collecting, LP.Granted)
  {
    GrantMoves(cfg, t, u, a);
    ReachesGranted(cfg, rules, s, u, a.id);
    u' := AfterLock(cfg, u, a.id, true);
  }

  lemma CollectMoves(cfg: Config, t: State, u: State, a: Ask, from: nat)
    requires 0 < from <= |a.clusters| && Stands(cfg, t, u, a, from, Collecting, LP.Granted)
    ensures Stands(cfg, t, AfterCollect(u, a.id, from - 1), a, from - 1, Collecting, LP.Granted)
  {
    var u' := AfterCollect(u, a.id, from - 1);
    assert SameOthers(t, u', a.id) && OwnAsk(t, u'.requests[a.id], a, from - 1, Collecting);
  }

  lemma MayCollect(cfg: Config, rules: Rules, t: State, u: State, a: Ask, from: nat)
    requires cfg.WellFormed() && 0 < from <= |a.clusters| && Stands(cfg, t, u, a, from, Collecting, LP.Granted)
    requires a.pod in t.pods && (rules.waived == Some(FreshSnapshot) || (Counts(t.pods[a.pod], a.budget) ==> a.ready))
    ensures Enabled(cfg, u, Collect(a.id, from - 1)) && Allows(cfg, rules, u, Collect(a.id, from - 1))
    ensures Apply(cfg, u, Collect(a.id, from - 1)) == AfterCollect(u, a.id, from - 1)
  {
    var r := u.requests[a.id];
    assert OwnAsk(t, r, a, from, Collecting);
    assert r.counted[from - 1].None?;
  }

  lemma Collects(cfg: Config, rules: Rules, s: State, t: State, u: State, a: Ask, from: nat) returns (u': State)
    requires cfg.WellFormed() && Reaches(cfg, rules, s, u) && 0 < from <= |a.clusters|
    requires Stands(cfg, t, u, a, from, Collecting, LP.Granted)
    requires a.pod in t.pods && (rules.waived == Some(FreshSnapshot) || (Counts(t.pods[a.pod], a.budget) ==> a.ready))
    ensures Reaches(cfg, rules, s, u') && Stands(cfg, t, u', a, from - 1, Collecting, LP.Granted)
  {
    MayCollect(cfg, rules, t, u, a, from);
    CollectMoves(cfg, t, u, a, from);
    ReachesNext(cfg, rules, s, u, Collect(a.id, from - 1));
    u' := AfterCollect(u, a.id, from - 1);
  }

  /** Up to having read every list, the local one last. */
  lemma CollectsAll(cfg: Config, rules: Rules, s: State, t: State, a: Ask) returns (u: State)
    requires cfg.WellFormed() && Reaches(cfg, rules, s, t) && MayAsk(cfg, rules, t, a)
    ensures Reaches(cfg, rules, s, u) && Stands(cfg, t, u, a, 0, Collecting, LP.Granted)
  {
    u := Locks(cfg, rules, s, t, a);
    u := IsGranted(cfg, rules, s, t, u, a);
    u := CollectsRest(cfg, rules, s, t, u, a, |a.clusters|);
  }

  lemma {:induction false} CollectsRest(cfg: Config, rules: Rules, s: State, t: State, u: State, a: Ask, from: nat)
    returns (u': State)
    requires cfg.WellFormed() && Reaches(cfg, rules, s, u) && from <= |a.clusters|
    requires Stands(cfg, t, u, a, from, Collecting, LP.Granted)
    requires a.pod in t.pods && (rules.waived == Some(FreshSnapshot) || (Counts(t.pods[a.pod], a.budget) ==> a.ready))
    ensures Reaches(cfg, rules, s, u') && Stands(cfg, t, u', a, 0, Collecting, LP.Granted)
    decreases from
  {
    if from == 0 {
      u' := u;
    } else {
      u' := Collects(cfg, rules, s, t, u, a, from);
      u' := CollectsRest(cfg, rules, s, t, u', a, from - 1);
    }
  }

  function FullLists(pods: map<PodId, Pod>, a: Ask): seq<set<PodId>> {
    seq(|a.clusters|, i requires 0 <= i < |a.clusters| => HealthyAt(pods, a.budget, a.clusters[i]))
  }

  /** The budget allows the eviction on the lists as they are. */
  predicate Passes(cfg: Config, pods: map<PodId, Pod>, a: Ask)
    requires cfg.WellFormed()
  {
    && a.budget in cfg.specs && (forall c | c in a.clusters :: c in cfg.clusters)
    && Verdict(cfg.specs[a.budget], a.ready, Values(cfg.scale[a.budget], a.clusters), Sizes(FullLists(pods, a)))
       == Ok(true)
  }

  lemma PhaseMoves(cfg: Config, t: State, u: State, a: Ask, from: nat, phase: Phase, status: LP.Status, phase': Phase)
    requires Stands(cfg, t, u, a, from, phase, status)
    ensures Stands(cfg, t, WithPhase(u, a.id, phase'), a, from, phase', status)
  {
    var u' := WithPhase(u, a.id, phase');
    assert SameOthers(t, u', a.id) && OwnAsk(t, u'.requests[a.id], a, from, phase');
  }

  lemma VerdictIsYes(cfg: Config, t: State, l: LP.Request, r: Request, a: Ask)
    requires cfg.WellFormed() && Passes(cfg, t.pods, a)
    requires OwnCall(cfg, t, l, a, LP.Granted) && OwnAsk(t, r, a, 0, Collecting)
    ensures r.budget in cfg.scale && (forall c | c in l.clusters :: c in cfg.clusters)
    ensures VerdictOf(cfg, r.budget, l.clusters, r) == Ok(true)
  {
    assert Lists(r.counted) == FullLists(t.pods, a);
  }

  lemma DecideClears(cfg: Config, u: State, id: Identity)
    requires cfg.WellFormed() && InPhase(u, id, Collecting) && LP.Enabled(u.lock, LP.BeginUnlock(id))
    requires u.requests[id].budget in cfg.scale
    requires forall c | c in u.lock.requests[id].clusters :: c in cfg.clusters
    requires forall j | 0 <= j < |u.requests[id].counted| :: u.requests[id].counted[j].Some?
    requires VerdictOf(cfg, u.requests[id].budget, u.lock.requests[id].clusters, u.requests[id]) == Ok(true)
    ensures Enabled(cfg, u, Decide(id)) && Apply(cfg, u, Decide(id)) == WithPhase(u, id, Cleared)
  {
  }

  lemma DecidesYes(cfg: Config, t: State, u: State, a: Ask)
    requires cfg.WellFormed() && Passes(cfg, t.pods, a)
    requires Stands(cfg, t, u, a, 0, Collecting, LP.Granted)
    ensures Enabled(cfg, u, Decide(a.id)) && Apply(cfg, u, Decide(a.id)) == WithPhase(u, a.id, Cleared)
  {
    VerdictIsYes(cfg, t, u.lock.requests[a.id], u.requests[a.id], a);
    DecideClears(cfg, u, a.id);
  }

  lemma IsCleared(cfg: Config, rules: Rules, s: State, t: State, u: State, a: Ask) returns (u': State)
    requires cfg.WellFormed() && Reaches(cfg, rules, s, u) && Passes(cfg, t.pods, a)
    requires Stands(cfg, t, u, a, 0, Collecting, LP.Granted)
    ensures Reaches(cfg, rules, s, u') && Stands(cfg, t, u', a, 0, Cleared, LP.Granted)
  {
    DecidesYes(cfg, t, u, a);
    ReachesNext(cfg, rules, s, u, Decide(a.id));
    PhaseMoves(cfg, t, u, a, 0, Collecting, LP.Granted, Cleared);
    u' := WithPhase(u, a.id, Cleared);
  }

  lemma IsAnswered(cfg: Config, rules: Rules, s: State, t: State, u: State, a: Ask) returns (u': State)
    requires cfg.WellFormed() && Reaches(cfg, rules, s, u) && 0 < cfg.timeout
    requires Stands(cfg, t, u, a, 0, Cleared, LP.Granted)
    ensures Reaches(cfg, rules, s, u') && Stands(cfg, t, u', a, 0, Admitted(t.lock.now), LP.Granted)
  {
    ReachesNext(cfg, rules, s, u, Respond(a.id));
    PhaseMoves(cfg, t, u, a, 0, Cleared, LP.Granted, Admitted(t.lock.now));
    u' := WithPhase(u, a.id, Admitted(t.lock.now));
  }

  /** A request that finds its slots free and room in its budget is admitted, all at one
      instant and without anybody else moving. */
  lemma GetsAdmitted(cfg: Config, rules: Rules, s: State, t: State, a: Ask) returns (u: State)
    requires cfg.WellFormed() && Reaches(cfg, rules, s, t) && MayAsk(cfg, rules, t, a)
    requires Passes(cfg, t.pods, a) && 0 < cfg.timeout
    ensures Reaches(cfg, rules, s, u) && Stands(cfg, t, u, a, 0, Admitted(t.lock.now), LP.Granted)
  {
    u := CollectsAll(cfg, rules, s, t, a);
    u := IsCleared(cfg, rules, s, t, u, a);
    u := IsAnswered(cfg, rules, s, t, u, a);
  }

  /** An admitted eviction takes effect. */
  lemma TakesEffect(cfg: Config, rules: Rules, s: State, t: State, id: Identity)
    requires cfg.WellFormed() && Reaches(cfg, rules, s, t) && IsAdmitted(t, id) && t.requests[id].candidate in t.pods
    ensures Reaches(cfg, rules, s, AfterEvict(t, id))
  {
    ReachesNext(cfg, rules, s, t, Evict(id));
  }
}
