/** The handlers fail closed, in every run and without any assumption on the environment. */
module FailClosed {
  import opened Leases
  import opened Budget
  import LP = LockProtocol
  import opened Admission

  /** The handler has said yes, whatever became of its answer. */
  predicate SaidYes(r: Request) {
    r.phase.Cleared? || r.phase.Admitted? || r.phase.Evicted? || r.phase.Dropped? || r.phase.Late?
  }

  /** Every endpoint granted its lease and reported its pods, and the budget allows the
      disruption on exactly these reports. */
  predicate Vouched(cfg: Config, l: LP.Request, r: Request)
    requires cfg.WellFormed()
  {
    && l.status.Granted? && l.WellShaped() && l.AllAcquired()
    && |r.counted| == |l.clusters|
    && (forall i :: 0 <= i < |r.counted| ==> r.counted[i].Some?)
    && r.budget in cfg.scale && (forall c | c in l.clusters :: c in cfg.clusters)
    && VerdictOf(cfg, r.budget, l.clusters, r) == Ok(true)
  }

  predicate RequestClosed(cfg: Config, l: LP.Request, r: Request)
    requires cfg.WellFormed()
  {
    && |r.counted| == |l.clusters|
    && (r.phase.Collecting? ==> l.status.Granted?)
    && (SaidYes(r) ==> Vouched(cfg, l, r))
  }

  predicate AllClosed(cfg: Config, s: State)
    requires cfg.WellFormed()
  {
    forall id :: id in s.requests ==>
      id in s.lock.requests && RequestClosed(cfg, s.lock.requests[id], s.requests[id])
  }

  ghost predicate Closed(cfg: Config, s: State)
    requires cfg.WellFormed()
  {
    LP.Consistent(s.lock) && AllClosed(cfg, s)
  }

  lemma WorkKeepsAcquired(duration: nat, s: LP.State, work: LP.Step, id: Identity)
    requires LP.IsTaskWork(work) && LP.Enabled(s, work) && id in s.requests
    requires s.requests[id].WellShaped() && s.requests[id].AllAcquired()
    ensures
      var l' := LP.Apply(duration, s, work).requests[id];
      l'.WellShaped() && l'.AllAcquired() && SameCall(s.requests[id], l')
  {
  }

  lemma LockWorkKeepsClosed(cfg: Config, s: State, work: LP.Step)
    requires cfg.WellFormed() && AllClosed(cfg, s) && Enabled(cfg, s, LockWork(work))
    ensures AllClosed(cfg, s.(lock := LP.Apply(cfg.duration, s.lock, work)))
  {
    TaskWorkKeepsCalls(cfg.duration, s.lock, work);
    var lock' := LP.Apply(cfg.duration, s.lock, work);
    forall id | id in s.requests
      ensures id in lock'.requests && RequestClosed(cfg, lock'.requests[id], s.requests[id])
    {
      if SaidYes(s.requests[id]) {
        WorkKeepsAcquired(cfg.duration, s.lock, work, id);
      }
    }
  }

  /** Nothing but request id changed, and that is closed. */
  predicate OnlyOwnClosed(cfg: Config, s: State, s': State, id: Identity)
    requires cfg.WellFormed()
  {
    && id in s'.requests && id in s'.lock.requests
    && RequestClosed(cfg, s'.lock.requests[id], s'.requests[id])
    && forall q :: q in s'.requests && q != id ==>
         q in s.requests && s'.requests[q] == s.requests[q]
         && q in s.lock.requests && q in s'.lock.requests && s'.lock.requests[q] == s.lock.requests[q]
  }

  lemma OnlyOwnKeepsClosed(cfg: Config, s: State, s': State, id: Identity)
    requires cfg.WellFormed() && AllClosed(cfg, s) && OnlyOwnClosed(cfg, s, s', id)
    ensures AllClosed(cfg, s')
  {
  }

  lemma ArriveKeepsClosed(cfg: Config, s: State, step: Step)
    requires cfg.WellFormed() && AllClosed(cfg, s) && step.Arrive? && Enabled(cfg, s, step)
    ensures AllClosed(cfg, AfterArrive(cfg, s, step.id, step.budget, step.candidate, step.snapshotReady, step.clusters))
  {
    OnlyOwnKeepsClosed(cfg, s, AfterArrive(cfg, s, step.id, step.budget, step.candidate, step.snapshotReady,
                                           step.clusters), step.id);
  }

  lemma LockReturnsKeepsClosed(cfg: Config, s: State, id: Identity, ok: bool)
    requires cfg.WellFormed() && AllClosed(cfg, s) && InPhase(s, id, Locking)
    requires LP.Enabled(s.lock, if ok then LP.Grant(id) else LP.Fail(id))
    ensures AllClosed(cfg, AfterLock(cfg, s, id, ok))
  {
    OnlyOwnKeepsClosed(cfg, s, AfterLock(cfg, s, id, ok), id);
  }

  lemma DenyKeepsClosed(cfg: Config, s: State, id: Identity)
    requires cfg.WellFormed() && AllClosed(cfg, s) && id in s.requests && LP.Enabled(s.lock, LP.BeginUnlock(id))
    ensures AllClosed(cfg, DenyAndUnlock(cfg, s, id))
  {
    OnlyOwnKeepsClosed(cfg, s, DenyAndUnlock(cfg, s, id), id);
  }

  /** A positive verdict is only taken on all leases and all reports. */
  lemma DecideVouches(cfg: Config, s: State, id: Identity)
    requires cfg.WellFormed() && Closed(cfg, s) && Enabled(cfg, s, Decide(id))
    requires VerdictOf(cfg, s.requests[id].budget, s.lock.requests[id].clusters, s.requests[id]) == Ok(true)
    ensures Vouched(cfg, s.lock.requests[id], s.requests[id].(phase := Cleared))
  {
    assert LP.RequestSound(s.lock.now, s.lock.store, id, s.lock.requests[id]);
    assert RequestClosed(cfg, s.lock.requests[id], s.requests[id]);
  }

  lemma ClearKeepsClosed(cfg: Config, s: State, id: Identity)
    requires cfg.WellFormed() && AllClosed(cfg, s) && id in s.requests && id in s.lock.requests
    requires Vouched(cfg, s.lock.requests[id], s.requests[id].(phase := Cleared))
    ensures AllClosed(cfg, WithPhase(s, id, Cleared))
  {
    OnlyOwnKeepsClosed(cfg, s, WithPhase(s, id, Cleared), id);
  }

  lemma DecideKeepsClosed(cfg: Config, s: State, id: Identity)
    requires cfg.WellFormed() && Closed(cfg, s) && Enabled(cfg, s, Decide(id))
    ensures AllClosed(cfg, AfterDecide(cfg, s, id))
  {
    if VerdictOf(cfg, s.requests[id].budget, s.lock.requests[id].clusters, s.requests[id]) == Ok(true) {
      DecideVouches(cfg, s, id);
      ClearKeepsClosed(cfg, s, id);
    } else {
      DenyKeepsClosed(cfg, s, id);
    }
  }

  lemma AnswerKeepsClosed(cfg: Config, s: State, id: Identity, phase: Phase)
    requires cfg.WellFormed() && AllClosed(cfg, s) && id in s.requests && SaidYes(s.requests[id])
    requires phase.Admitted? || phase.Evicted? || phase.Dropped? || phase.Late?
    ensures AllClosed(cfg, WithPhase(s, id, phase))
  {
    OnlyOwnKeepsClosed(cfg, s, WithPhase(s, id, phase), id);
  }

  lemma CollectKeepsClosed(cfg: Config, s: State, id: Identity, i: nat)
    requires cfg.WellFormed() && AllClosed(cfg, s) && InPhase(s, id, Collecting)
    requires i < |s.requests[id].counted| == |s.lock.requests[id].clusters|
    ensures AllClosed(cfg, AfterCollect(s, id, i))
  {
    OnlyOwnKeepsClosed(cfg, s, AfterCollect(s, id, i), id);
  }

  lemma LockSideStaysConsistent(cfg: Config, s: State, step: Step)
    requires cfg.WellFormed() && LP.Consistent(s.lock) && Enabled(cfg, s, step)
    ensures LP.Consistent(Apply(cfg, s, step).lock)
  {
    LockSide(cfg, s, step);
    if Apply(cfg, s, step).lock != s.lock {
      LP.StepKeepsConsistent(cfg.duration, s.lock, LockStepOf(cfg, step));
    }
  }

  lemma HandlerStepKeepsClosed(cfg: Config, s: State, step: Step)
    requires cfg.WellFormed() && Closed(cfg, s) && Enabled(cfg, s, step) && IsHandlerStep(step)
    ensures AllClosed(cfg, Apply(cfg, s, step))
  {
    if step.LockReturns? {
      LockReturnsKeepsClosed(cfg, s, step.id, step.ok);
    } else if step.Collect? {
      CollectKeepsClosed(cfg, s, step.id, step.i);
    } else if step.Decide? {
      DecideKeepsClosed(cfg, s, step.id);
    } else {
      DenyKeepsClosed(cfg, s, step.id);
    }
  }

  /** Time and pods have no part in it. */
  lemma OtherStepKeepsClosed(cfg: Config, s: State, step: Step)
    requires cfg.WellFormed() && AllClosed(cfg, s) && Enabled(cfg, s, step) && !IsHandlerStep(step)
    ensures AllClosed(cfg, Apply(cfg, s, step))
  {
    if step.Arrive? {
      ArriveKeepsClosed(cfg, s, step);
    } else if step.LockWork? {
      LockWorkKeepsClosed(cfg, s, step.work);
    } else if step.Respond? {
      AnswerKeepsClosed(cfg, s, step.id, Answer(cfg, s, step.id));
    } else if step.Evict? {
      AnswerKeepsClosed(cfg, s, step.id, Evicted);
    } else if step.Drop? {
      AnswerKeepsClosed(cfg, s, step.id, Dropped);
    }
  }

  lemma StepKeepsClosed(cfg: Config, s: State, step: Step)
    requires cfg.WellFormed() && Closed(cfg, s) && Enabled(cfg, s, step)
    ensures Closed(cfg, Apply(cfg, s, step))
  {
    LockSideStaysConsistent(cfg, s, step);
    if IsHandlerStep(step) {
      HandlerStepKeepsClosed(cfg, s, step);
    } else {
      OtherStepKeepsClosed(cfg, s, step);
    }
  }

  lemma {:induction false} RunKeepsClosed(cfg: Config, s: State, steps: seq<Step>)
    requires cfg.WellFormed() && Closed(cfg, s) && Valid(cfg, s, steps)
    ensures Closed(cfg, Final(cfg, s, steps))
    decreases |steps|
  {
    if steps != [] {
      StepKeepsClosed(cfg, s, steps[0]);
      RunKeepsClosed(cfg, Apply(cfg, s, steps[0]), steps[1..]);
    }
  }

  /** An eviction is only ever allowed when every configured endpoint granted its lease and
      reported its pods, and the verdict over these reports was positive. */
  lemma AllowedOnlyIfVouched(cfg: Config, s: State, steps: seq<Step>, id: Identity)
    requires cfg.WellFormed() && Initial(s) && Valid(cfg, s, steps)
    requires id in Final(cfg, s, steps).requests && SaidYes(Final(cfg, s, steps).requests[id])
    ensures
      var f := Final(cfg, s, steps);
      id in f.lock.requests && Vouched(cfg, f.lock.requests[id], f.requests[id])
  {
    RunKeepsClosed(cfg, s, steps);
  }
}
