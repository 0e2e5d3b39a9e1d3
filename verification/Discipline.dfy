/** What the handlers do with their leases, in every run and without any assumption: whoever was
    allowed keeps them, whoever was denied under the lock gives them back, and a Lock that failed
    is not followed by an Unlock. */
module Discipline {
  import opened Leases
  import opened Budget
  import LP = LockProtocol
  import opened Admission

  /** The phase of the handler and the state of its Lock go together. */
  predicate Disciplined(l: LP.Request, r: Request) {
    match r.phase
    case Locking => l.status.Pending?
    case Denied => l.status.Failed? || l.status.Releasing?
    case _ => l.status.Granted?
  }

  /** The local list is read last. */
  predicate LocalLast(r: Request) {
    |r.counted| > 0 && r.counted[0].Some? ==> forall j | 0 < j < |r.counted| :: r.counted[j].Some?
  }

  /** The eviction of request id has taken effect on its pod. */
  predicate Gone(s: State, id: Identity, p: PodId) {
    && id in s.requests && s.requests[id].phase.Evicted? && s.requests[id].candidate == p
    && p in s.pods && s.pods[p].terminating
  }

  predicate AllDisciplined(s: State) {
    forall id :: id in s.requests ==>
      && id in s.lock.requests && Disciplined(s.lock.requests[id], s.requests[id]) && LocalLast(s.requests[id])
      && (s.requests[id].phase.Evicted? ==> Gone(s, id, s.requests[id].candidate))
  }

  lemma WorkKeepsDisciplined(cfg: Config, s: State, work: LP.Step)
    requires cfg.WellFormed() && AllDisciplined(s) && Enabled(cfg, s, LockWork(work))
    ensures AllDisciplined(s.(lock := LP.Apply(cfg.duration, s.lock, work)))
  {
    TaskWorkKeepsCalls(cfg.duration, s.lock, work);
  }

  lemma ReturnKeepsDisciplined(cfg: Config, s: State, id: Identity, ok: bool)
    requires AllDisciplined(s) && InPhase(s, id, Locking)
    requires LP.Enabled(s.lock, if ok then LP.Grant(id) else LP.Fail(id))
    ensures AllDisciplined(AfterLock(cfg, s, id, ok))
  {
  }

  lemma DenyKeepsDisciplined(cfg: Config, s: State, id: Identity)
    requires AllDisciplined(s) && id in s.requests && LP.Enabled(s.lock, LP.BeginUnlock(id))
    ensures AllDisciplined(DenyAndUnlock(cfg, s, id))
  {
  }

  lemma DecideKeepsDisciplined(cfg: Config, s: State, id: Identity)
    requires cfg.WellFormed() && AllDisciplined(s) && Enabled(cfg, s, Decide(id))
    ensures AllDisciplined(AfterDecide(cfg, s, id))
  {
    if AfterDecide(cfg, s, id) == DenyAndUnlock(cfg, s, id) {
      DenyKeepsDisciplined(cfg, s, id);
    }
  }

  lemma HandlerStepKeepsDisciplined(cfg: Config, s: State, step: Step)
    requires cfg.WellFormed() && AllDisciplined(s) && Enabled(cfg, s, step) && IsHandlerStep(step)
    ensures AllDisciplined(Apply(cfg, s, step))
  {
    if step.LockReturns? {
      ReturnKeepsDisciplined(cfg, s, step.id, step.ok);
    } else if step.Decide? {
      DecideKeepsDisciplined(cfg, s, step.id);
    } else if !step.Collect? {
      DenyKeepsDisciplined(cfg, s, step.id);
    }
  }

  lemma StepKeepsDisciplined(cfg: Config, s: State, step: Step)
    requires cfg.WellFormed() && AllDisciplined(s) && Enabled(cfg, s, step)
    ensures AllDisciplined(Apply(cfg, s, step))
  {
    if IsHandlerStep(step) {
      HandlerStepKeepsDisciplined(cfg, s, step);
    } else if step.LockWork? {
      WorkKeepsDisciplined(cfg, s, step.work);
    } else if IsPodStep(step) || step.Tick? {
      SurroundingsKeepDisciplined(cfg, s, step);
    }
  }

  lemma SurroundingsKeepDisciplined(cfg: Config, s: State, step: Step)
    requires cfg.WellFormed() && AllDisciplined(s) && Enabled(cfg, s, step) && (IsPodStep(step) || step.Tick?)
    ensures AllDisciplined(Apply(cfg, s, step))
  {
  }

  lemma {:induction false} RunKeepsDisciplined(cfg: Config, s: State, steps: seq<Step>)
    requires cfg.WellFormed() && AllDisciplined(s) && Valid(cfg, s, steps)
    ensures AllDisciplined(Final(cfg, s, steps))
    decreases |steps|
  {
    if steps != [] {
      StepKeepsDisciplined(cfg, s, steps[0]);
      RunKeepsDisciplined(cfg, Apply(cfg, s, steps[0]), steps[1..]);
    }
  }

  /** Once granted, a Lock can only be released. */
  lemma StepKeepsGranted(cfg: Config, s: State, step: Step, id: Identity)
    requires cfg.WellFormed() && Enabled(cfg, s, step) && id in s.lock.requests
    requires s.lock.requests[id].status.Granted? || s.lock.requests[id].status.Releasing?
    ensures
      var s' := Apply(cfg, s, step);
      id in s'.lock.requests && (s'.lock.requests[id].status.Granted? || s'.lock.requests[id].status.Releasing?)
  {
    LockSide(cfg, s, step);
    if Apply(cfg, s, step).lock != s.lock {
      LockStepKeepsGranted(cfg.duration, s.lock, LockStepOf(cfg, step), id);
    }
  }

  lemma LockStepKeepsGranted(duration: nat, s: LP.State, work: LP.Step, id: Identity)
    requires LP.Enabled(s, work) && id in s.requests
    requires s.requests[id].status.Granted? || s.requests[id].status.Releasing?
    ensures
      var s' := LP.Apply(duration, s, work);
      id in s'.requests && (s'.requests[id].status.Granted? || s'.requests[id].status.Releasing?)
  {
  }

  lemma {:induction false} RunKeepsGranted(cfg: Config, s: State, steps: seq<Step>, id: Identity)
    requires cfg.WellFormed() && Valid(cfg, s, steps) && id in s.lock.requests
    requires s.lock.requests[id].status.Granted? || s.lock.requests[id].status.Releasing?
    ensures
      var f := Final(cfg, s, steps);
      id in f.lock.requests && (f.lock.requests[id].status.Granted? || f.lock.requests[id].status.Releasing?)
    decreases |steps|
  {
    if steps != [] {
      StepKeepsGranted(cfg, s, steps[0], id);
      RunKeepsGranted(cfg, Apply(cfg, s, steps[0]), steps[1..], id);
    }
  }

  /** Over every run: a request that is Denied after its Lock was granted is unlocking; one whose
      Lock failed is Denied and is not; every other one that got past its Lock, whether cleared,
      admitted, evicted, dropped or too late, has its Lock as granted; lists are read local last;
      and the pod of an evicted one is on its way out. */
  lemma LeaseDiscipline(cfg: Config, s: State, before: seq<Step>, after: seq<Step>, id: Identity)
    requires cfg.WellFormed() && Initial(s) && Valid(cfg, s, before)
    requires Valid(cfg, Final(cfg, s, before), after) && id in Final(cfg, s, before).requests
    ensures
      var m := Final(cfg, s, before);
      var f := Final(cfg, m, after);
      && id in m.lock.requests && id in f.lock.requests && id in f.requests
      && Disciplined(f.lock.requests[id], f.requests[id]) && LocalLast(f.requests[id])
      && (f.requests[id].phase.Evicted? ==> Gone(f, id, f.requests[id].candidate))
      && (m.lock.requests[id].status.Granted? && f.requests[id].phase.Denied? ==> f.lock.requests[id].status.Releasing?)
  {
    var m := Final(cfg, s, before);
    RunKeepsDisciplined(cfg, s, before);
    RunKeepsDisciplined(cfg, m, after);
    RunKeepsRequest(cfg, m, after, id);
    if m.lock.requests[id].status.Granted? {
      RunKeepsGranted(cfg, m, after, id);
    }
  }

  lemma {:induction false} RunKeepsRequest(cfg: Config, s: State, steps: seq<Step>, id: Identity)
    requires cfg.WellFormed() && Valid(cfg, s, steps) && id in s.requests
    ensures id in Final(cfg, s, steps).requests
    decreases |steps|
  {
    if steps != [] {
      StepKeepsRequest(cfg, s, steps[0], id);
      RunKeepsRequest(cfg, Apply(cfg, s, steps[0]), steps[1..], id);
    }
  }

  lemma StepKeepsRequest(cfg: Config, s: State, step: Step, id: Identity)
    requires cfg.WellFormed() && Enabled(cfg, s, step) && id in s.requests
    ensures id in Apply(cfg, s, step).requests
  {
  }

  // ----- an eviction is final

  lemma StepKeepsGone(cfg: Config, s: State, step: Step, id: Identity, p: PodId)
    requires cfg.WellFormed() && Enabled(cfg, s, step) && Gone(s, id, p)
    ensures Gone(Apply(cfg, s, step), id, p)
  {
    EvictedIsLeftAlone(cfg, s, step, id);
    TerminatingStays(cfg, s, step, p);
  }

  lemma EvictedIsLeftAlone(cfg: Config, s: State, step: Step, id: Identity)
    requires cfg.WellFormed() && Enabled(cfg, s, step) && id in s.requests && s.requests[id].phase.Evicted?
    ensures id in Apply(cfg, s, step).requests && Apply(cfg, s, step).requests[id] == s.requests[id]
  {
    if IsHandlerStep(step) {
      HandlersLeaveAlone(cfg, s, step, id);
    } else {
      OthersLeaveAlone(cfg, s, step, id);
    }
  }

  lemma HandlersLeaveAlone(cfg: Config, s: State, step: Step, id: Identity)
    requires cfg.WellFormed() && Enabled(cfg, s, step) && id in s.requests && s.requests[id].phase.Evicted?
    requires IsHandlerStep(step)
    ensures id in Apply(cfg, s, step).requests && Apply(cfg, s, step).requests[id] == s.requests[id]
  {
    assert step.id != id;
  }

  lemma OthersLeaveAlone(cfg: Config, s: State, step: Step, id: Identity)
    requires cfg.WellFormed() && Enabled(cfg, s, step) && id in s.requests && s.requests[id].phase.Evicted?
    requires !IsHandlerStep(step)
    ensures id in Apply(cfg, s, step).requests && Apply(cfg, s, step).requests[id] == s.requests[id]
  {
  }

  lemma TerminatingStays(cfg: Config, s: State, step: Step, p: PodId)
    requires cfg.WellFormed() && Enabled(cfg, s, step) && p in s.pods && s.pods[p].terminating
    ensures p in Apply(cfg, s, step).pods && Apply(cfg, s, step).pods[p].terminating
  {
  }

  lemma {:induction false} RunKeepsGone(cfg: Config, s: State, steps: seq<Step>, id: Identity, p: PodId)
    requires cfg.WellFormed() && Valid(cfg, s, steps) && Gone(s, id, p)
    ensures Gone(Final(cfg, s, steps), id, p)
    decreases |steps|
  {
    if steps != [] {
      StepKeepsGone(cfg, s, steps[0], id, p);
      RunKeepsGone(cfg, Apply(cfg, s, steps[0]), steps[1..], id, p);
    }
  }

  /** An eviction that takes effect is final, whatever happens after it. */
  lemma EvictionIsFinal(cfg: Config, s: State, before: seq<Step>, id: Identity, after: seq<Step>)
    requires cfg.WellFormed() && Valid(cfg, s, before) && Enabled(cfg, Final(cfg, s, before), Evict(id))
    requires Valid(cfg, Apply(cfg, Final(cfg, s, before), Evict(id)), after)
    ensures
      var m := Final(cfg, s, before);
      Gone(Final(cfg, Apply(cfg, m, Evict(id)), after), id, m.requests[id].candidate)
  {
    var m := Final(cfg, s, before);
    RunKeepsGone(cfg, Apply(cfg, m, Evict(id)), after, id, m.requests[id].candidate);
  }
}
