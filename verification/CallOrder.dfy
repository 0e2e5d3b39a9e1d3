/** The order of the calls in the step system, in every run and whatever goes wrong: the local
    cluster before the others, and no call of a LocalLock or LocalUnlock twice. */
module CallOrder {
  import opened Leases
  import opened LockProtocol
  import opened Progress

  // ----- the local cluster first

  /** A remote lease is only asked for when the local one was granted, and only given back when
      the local one is gone. */
  predicate LocalFirst(r: Request) {
    LocksLocalFirst(r) && UnlocksLocalFirst(r)
  }

  predicate LocksLocalFirst(r: Request) {
    r.WellShaped() && forall i | 0 < i < |r.clusters| :: r.locks[i].Idle? || r.locks[0].Acquired?
  }

  predicate UnlocksLocalFirst(r: Request) {
    && r.WellShaped()
    && forall i | 0 < i < |r.clusters| :: r.unlocks[i].Untouched? || r.unlocks[0].Deleted? || r.unlocks[0].Absent?
  }

  lemma StepLocksLocalFirst(duration: nat, s: State, step: Step, id: Identity)
    requires Enabled(s, step) && id in Apply(duration, s, step).requests
    requires id in s.requests ==> LocksLocalFirst(s.requests[id])
    ensures LocksLocalFirst(Apply(duration, s, step).requests[id])
  {
  }

  lemma StepUnlocksLocalFirst(duration: nat, s: State, step: Step, id: Identity)
    requires Enabled(s, step) && id in Apply(duration, s, step).requests
    requires id in s.requests ==> UnlocksLocalFirst(s.requests[id])
    ensures UnlocksLocalFirst(Apply(duration, s, step).requests[id])
  {
  }

  lemma StepKeepsLocalFirst(duration: nat, s: State, step: Step, id: Identity)
    requires Enabled(s, step) && id in Apply(duration, s, step).requests
    requires id in s.requests ==> LocalFirst(s.requests[id])
    ensures LocalFirst(Apply(duration, s, step).requests[id])
  {
    StepLocksLocalFirst(duration, s, step, id);
    StepUnlocksLocalFirst(duration, s, step, id);
  }

  lemma {:induction false} RunKeepsLocalFirst(duration: nat, s: State, steps: seq<Step>)
    requires Valid(duration, s, steps) && forall id | id in s.requests :: LocalFirst(s.requests[id])
    ensures forall id | id in Final(duration, s, steps).requests :: LocalFirst(Final(duration, s, steps).requests[id])
    decreases |steps|
  {
    if steps != [] {
      var s' := Apply(duration, s, steps[0]);
      forall id | id in s'.requests
        ensures LocalFirst(s'.requests[id])
      {
        StepKeepsLocalFirst(duration, s, steps[0], id);
      }
      RunKeepsLocalFirst(duration, s', steps[1..]);
    }
  }

  lemma LocalComesFirst(duration: nat, s: State, steps: seq<Step>, id: Identity)
    requires Initial(s) && Valid(duration, s, steps) && id in Final(duration, s, steps).requests
    ensures LocalFirst(Final(duration, s, steps).requests[id])
  {
    RunKeepsLocalFirst(duration, s, steps);
  }

  // ----- no call twice

  /** A step of the LocalLock of request id at endpoint i. */
  predicate Locks(step: Step, id: Identity, i: nat) {
    match step
    case BuildTemplate(q, j) => q == id && j == i
    case Create(q, j, _) => q == id && j == i
    case Get(q, j) => q == id && j == i
    case CheckDeadline(q, j) => q == id && j == i
    case Restamp(q, j) => q == id && j == i
    case Update(q, j, _) => q == id && j == i
    case Abort(q, j) => q == id && j == i
    case _ => false
  }

  /** A step of its LocalUnlock there. */
  predicate Unlocks(step: Step, id: Identity, i: nat) {
    match step
    case UnlockGet(q, j) => q == id && j == i
    case UnlockGetError(q, j) => q == id && j == i
    case Delete(q, j) => q == id && j == i
    case _ => false
  }

  function UnlockLeft(task: UnlockTask): nat {
    match task
    case Untouched => 2
    case Matched => 1
    case _ => 0
  }

  /** Every step of a call brings it closer to its end, and nothing ever sets it back. */
  lemma StepAdvances(duration: nat, s: State, step: Step, id: Identity, i: nat)
    requires Enabled(s, step) && HasTask(s, id, i)
    ensures
      var s' := Apply(duration, s, step);
      && HasTask(s', id, i)
      && Left(s'.requests[id].locks[i]) + (if Locks(step, id, i) then 1 else 0) <= Left(s.requests[id].locks[i])
      && UnlockLeft(s'.requests[id].unlocks[i]) + (if Unlocks(step, id, i) then 1 else 0)
         <= UnlockLeft(s.requests[id].unlocks[i])
  {
    LockAdvances(duration, s, step, id, i);
    UnlockAdvances(duration, s, step, id, i);
  }

  lemma LockAdvances(duration: nat, s: State, step: Step, id: Identity, i: nat)
    requires Enabled(s, step) && HasTask(s, id, i)
    ensures HasTask(Apply(duration, s, step), id, i)
    ensures Left(Apply(duration, s, step).requests[id].locks[i]) + (if Locks(step, id, i) then 1 else 0)
            <= Left(s.requests[id].locks[i])
  {
  }

  lemma UnlockAdvances(duration: nat, s: State, step: Step, id: Identity, i: nat)
    requires Enabled(s, step) && HasTask(s, id, i)
    ensures HasTask(Apply(duration, s, step), id, i)
    ensures UnlockLeft(Apply(duration, s, step).requests[id].unlocks[i]) + (if Unlocks(step, id, i) then 1 else 0)
            <= UnlockLeft(s.requests[id].unlocks[i])
  {
  }

  function LockSteps(steps: seq<Step>, id: Identity, i: nat): nat {
    if steps == [] then 0 else (if Locks(steps[0], id, i) then 1 else 0) + LockSteps(steps[1..], id, i)
  }

  function UnlockSteps(steps: seq<Step>, id: Identity, i: nat): nat {
    if steps == [] then 0 else (if Unlocks(steps[0], id, i) then 1 else 0) + UnlockSteps(steps[1..], id, i)
  }

  /** In every run a LocalLock takes at most six steps and a LocalUnlock two, so no call is made
      twice: a LocalLock that is refused, or finds nothing to take over, is not tried again. */
  lemma {:induction false} NoCallTwice(duration: nat, s: State, steps: seq<Step>, id: Identity, i: nat)
    requires Valid(duration, s, steps) && HasTask(s, id, i)
    ensures
      var f := Final(duration, s, steps);
      && HasTask(f, id, i)
      && LockSteps(steps, id, i) + Left(f.requests[id].locks[i]) <= Left(s.requests[id].locks[i]) <= 6
      && UnlockSteps(steps, id, i) + UnlockLeft(f.requests[id].unlocks[i]) <= UnlockLeft(s.requests[id].unlocks[i]) <= 2
    decreases |steps|
  {
    if steps != [] {
      StepAdvances(duration, s, steps[0], id, i);
      NoCallTwice(duration, Apply(duration, s, steps[0]), steps[1..], id, i);
    }
  }
}
