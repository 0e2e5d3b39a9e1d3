/** How exact the timing conditions are: the runs that go wrong without them. */
module Timing {
  import opened Int32
  import opened Leases
  import opened Sums
  import opened Budget
  import LP = LockProtocol
  import Runs
  import opened Admission
  import opened Handling

  // ----- a small world

  /** One cluster, two healthy pods, and a budget that keeps one of them. */
  function Small(duration: nat, leftover: nat, timeout: nat, visibility: nat): Config {
    Config(duration, leftover, timeout, visibility, {0}, map[0 := Spec(None, Some(Absolute(1)))], map[0 := 0],
           map[0 := map[0 := 2]])
  }

  function TwoPods(first: bool, second: bool): map<PodId, Pod> {
    map[0 := Pod(0, {0}, true, first), 1 := Pod(0, {0}, true, second)]
  }

  function Fresh(st: Store): State {
    State(LP.State(0, st, map[]), map[], TwoPods(false, false))
  }

  const SLOT: Slot := Slot(0, 0)

  /** The eviction of one of the pods. */
  function AskFor(id: Identity, pod: PodId, ready: bool): Ask {
    Ask(id, 0, pod, ready, [0])
  }

  lemma SmallMayAsk(cfg: Config, rules: Rules, t: State, d: nat, l: nat, w: nat, v: nat, id: Identity, pod: PodId)
    requires cfg == Small(d, l, w, v) && cfg.WellFormed() && t.pods == TwoPods(false, false) && pod < 2
    requires id !in t.requests && id !in t.lock.requests && t.lock.store.Free(SLOT, t.lock.now)
    ensures MayAsk(cfg, rules, t, AskFor(id, pod, true))
  {
    assert Members([0]) == {0} by {
      assert 0 in [0];
    }
  }

  lemma SmallPasses(d: nat, l: nat, w: nat, v: nat, id: Identity, pod: PodId)
    ensures Small(d, l, w, v).WellFormed()
    ensures Passes(Small(d, l, w, v), TwoPods(false, false), AskFor(id, pod, true))
  {
    var lists := FullLists(TwoPods(false, false), AskFor(id, pod, true));
    assert HealthyAt(TwoPods(false, false), 0, 0) == {0, 1};
    assert lists == [{0, 1}];
    assert Sizes(lists) == [2];
    assert Sum([2]) == 2 by {
      assert [2][..0] == [];
    }
  }

  // ----- two evictions that overlap when the lease does not outlast the first one

  /** Request 1 is admitted for pod 0 and nobody else is there. */
  predicate OnlyFirst(t: State) {
    && t.requests.Keys == {1} && t.lock.requests.Keys == {1} && t.pods == TwoPods(false, false)
    && t.requests[1].phase.Admitted? && t.requests[1].candidate == 0 && t.requests[1].budget == 0
  }

  lemma Waits(cfg: Config, rules: Rules, s: State, t: State, elapsed: nat)
    requires cfg.WellFormed() && Reaches(cfg, rules, s, t) && Assumed(cfg, t, Tick(elapsed))
    ensures Reaches(cfg, rules, s, t.(lock := t.lock.(now := t.lock.now + elapsed)))
  {
    ReachesNext(cfg, rules, s, t, Tick(elapsed));
  }

  lemma AnswersNow(cfg: Config, rules: Rules, s: State, t: State, id: Identity)
    requires cfg.WellFormed() && Reaches(cfg, rules, s, t) && InPhase(t, id, Cleared)
    requires t.lock.now < t.lock.requests[id].start + cfg.timeout
    ensures Reaches(cfg, rules, s, WithPhase(t, id, Admitted(t.lock.now)))
  {
    ReachesNext(cfg, rules, s, t, Respond(id));
  }

  /** The first request is cleared at time 0. */
  lemma FirstIsCleared(cfg: Config, d: nat, l: nat, w: nat, v: nat, st: Store) returns (u: State)
    requires cfg == Small(d, l, w, v) && cfg.WellFormed() && st.Free(SLOT, 0)
    ensures Reaches(cfg, FAIR, Fresh(st), u)
    ensures Stands(cfg, Fresh(st), u, AskFor(1, 0, true), 0, Cleared, LP.Granted)
  {
    var s, a := Fresh(st), AskFor(1, 0, true);
    ReachesSelf(cfg, FAIR, s);
    SmallMayAsk(cfg, FAIR, s, d, l, w, v, 1, 0);
    SmallPasses(d, l, w, v, 1, 0);
    u := CollectsAll(cfg, FAIR, s, s, a);
    u := IsCleared(cfg, FAIR, s, s, u, a);
  }

  /** Request 1 stands alone before its answer, cleared and with a lease from time 0. */
  predicate AloneAndCleared(u: State, term: nat) {
    && u.requests.Keys == {1} && u.lock.requests.Keys == {1} && u.pods == TwoPods(false, false)
    && u.requests[1].phase.Cleared? && u.requests[1].candidate == 0 && u.requests[1].budget == 0
    && u.lock.requests[1].start == 0
    && SLOT in u.lock.store.leases && u.lock.store.leases[SLOT].acquired == 0
    && u.lock.store.leases[SLOT].duration == term
  }

  lemma ClearedIsAlone(cfg: Config, d: nat, l: nat, w: nat, v: nat, st: Store, u: State)
    requires cfg == Small(d, l, w, v) && Stands(cfg, Fresh(st), u, AskFor(1, 0, true), 0, Cleared, LP.Granted)
    ensures AloneAndCleared(u, st.Term(SLOT, d)) && u.lock.now == 0
  {
    var a := AskFor(1, 0, true);
    assert 0 in a.clusters && SlotFor(cfg, a, 0) == SLOT;
    assert Runs.HeldAnew(d, Fresh(st).lock, u.lock, 1, SLOT);
  }

  /** It answers at the last moment of its timeout ... */
  lemma AnswersLast(cfg: Config, s: State, u: State, term: nat, w: nat) returns (t: State)
    requires cfg.WellFormed() && cfg.timeout == w && 0 < w
    requires Reaches(cfg, FAIR, s, u) && AloneAndCleared(u, term) && u.lock.now == 0
    ensures Reaches(cfg, FAIR, s, t) && OnlyFirst(t) && t.requests[1].phase == Admitted(w - 1)
    ensures t.lock.now == w - 1 && t.lock.store == u.lock.store
  {
    Waits(cfg, FAIR, s, u, w - 1);
    var u1 := u.(lock := u.lock.(now := w - 1));
    AnswersNow(cfg, FAIR, s, u1, 1);
    t := WithPhase(u1, 1, Admitted(w - 1));
  }

  /** ... and stays invisible until its lease is over. */
  lemma FirstIsAdmitted(cfg: Config, d: nat, l: nat, w: nat, v: nat, st: Store) returns (t: State)
    requires cfg == Small(d, l, w, v) && cfg.WellFormed() && 0 < w
    requires st.Free(SLOT, 0) && st.Term(SLOT, d) < w + v
    ensures Reaches(cfg, FAIR, Fresh(st), t) && OnlyFirst(t) && t.lock.store.Free(SLOT, t.lock.now)
  {
    var s, term := Fresh(st), st.Term(SLOT, d);
    var u := FirstIsCleared(cfg, d, l, w, v, st);
    ClearedIsAlone(cfg, d, l, w, v, st, u);
    u := AnswersLast(cfg, s, u, term, w);
    var rest := if term <= w - 1 then 0 else term - (w - 1);
    Waits(cfg, FAIR, s, u, rest);
    t := u.(lock := u.lock.(now := w - 1 + rest));
  }

  lemma PodsGo()
    ensures Remove(TwoPods(false, false), 0) == TwoPods(true, false)
    ensures Remove(TwoPods(true, false), 1) == TwoPods(true, true)
  {
  }

  /** Two admitted evictions of both pods take effect one after the other. */
  lemma BothTakeEffect(cfg: Config, rules: Rules, s: State, t: State) returns (u: State)
    requires cfg.WellFormed() && Reaches(cfg, rules, s, t)
    requires IsAdmitted(t, 1) && IsAdmitted(t, 2) && t.pods == TwoPods(false, false)
    requires t.requests[1].candidate == 0 && t.requests[2].candidate == 1
    ensures Reaches(cfg, rules, s, u) && u.pods == TwoPods(true, true)
  {
    PodsGo();
    TakesEffect(cfg, rules, s, t, 1);
    var t1 := AfterEvict(t, 1);
    assert t1.requests[2] == t.requests[2];
    TakesEffect(cfg, rules, s, t1, 2);
    u := AfterEvict(t1, 2);
  }

  /** Since t, request id was admitted for this pod and took the slot; the others did not move. */
  ghost predicate Joined(d: nat, t: State, u: State, id: Identity, pod: PodId) {
    && SameOthers(t, u, id) && u.requests[id].phase == Admitted(t.lock.now)
    && u.requests[id].candidate == pod && u.requests[id].budget == 0
    && Runs.HeldAnew(d, t.lock, u.lock, id, SLOT)
  }

  lemma SmallIsAdmitted(cfg: Config, rules: Rules, d: nat, l: nat, w: nat, v: nat, s: State, t: State,
                        id: Identity, pod: PodId) returns (u: State)
    requires cfg == Small(d, l, w, v) && cfg.WellFormed() && 0 < w && Reaches(cfg, rules, s, t)
    requires t.pods == TwoPods(false, false) && pod < 2
    requires id !in t.requests && id !in t.lock.requests && t.lock.store.Free(SLOT, t.lock.now)
    ensures Reaches(cfg, rules, s, u) && Joined(d, t, u, id, pod)
  {
    var a := AskFor(id, pod, true);
    SmallMayAsk(cfg, rules, t, d, l, w, v, id, pod);
    SmallPasses(d, l, w, v, id, pod);
    u := GetsAdmitted(cfg, rules, s, t, a);
    assert 0 in a.clusters && SlotFor(cfg, a, 0) == SLOT;
  }

  /** Wherever the slot is free while request 1 is admitted and invisible, a second request is
      admitted as well, and both pods go. */
  lemma SecondFollows(cfg: Config, rules: Rules, d: nat, l: nat, w: nat, v: nat, s: State, t: State) returns (u: State)
    requires cfg == Small(d, l, w, v) && cfg.WellFormed() && 0 < w && Reaches(cfg, rules, s, t)
    requires IsAdmitted(t, 1) && t.requests[1].candidate == 0 && t.pods == TwoPods(false, false)
    requires 2 !in t.requests && 2 !in t.lock.requests && t.lock.store.Free(SLOT, t.lock.now)
    ensures Reaches(cfg, rules, s, u) && u.pods == TwoPods(true, true)
  {
    var u1 := SmallIsAdmitted(cfg, rules, d, l, w, v, s, t, 2, 1);
    assert u1.requests[1] == t.requests[1];
    u := BothTakeEffect(cfg, rules, s, u1);
  }

  lemma SmallBudgetIsOne(d: nat, l: nat, w: nat, v: nat, n: nat)
    ensures Small(d, l, w, v).WellFormed()
    ensures Meets(Small(d, l, w, v), 0, n) <==> n >= 1
  {
  }

  // ----- the exact condition

  /** A run that starts with every budget met and meets all assumptions. */
  ghost predicate FairRun(cfg: Config, s: State, steps: seq<Step>) {
    cfg.WellFormed() && Start(cfg, s) && AllMet(cfg, s) && Valid(cfg, s, steps) && AllAssumed(cfg, s, steps)
  }

  predicate Timed(cfg: Config, duration: nat, leftover: nat, timeout: nat, visibility: nat) {
    && cfg.duration == duration && cfg.leftover == leftover
    && cfg.timeout == timeout && cfg.visibility == visibility
  }

  /** With these durations no mesh, no pods and no fair run ever breaks a budget. */
  ghost predicate Safe(duration: nat, leftover: nat, timeout: nat, visibility: nat) {
    forall cfg: Config, s: State, steps: seq<Step> ::
      Timed(cfg, duration, leftover, timeout, visibility) && FairRun(cfg, s, steps) ==>
        AllMet(cfg, Final(cfg, s, steps))
  }

  lemma SmallStart(d: nat, l: nat, w: nat, v: nat, st: Store)
    ensures Small(d, l, w, v).WellFormed() && AllMet(Small(d, l, w, v), Fresh(st))
  {
    var s := Fresh(st);
    assert Staying(s, 0) == {0, 1};
    SmallBudgetIsOne(d, l, w, v, 2);
  }

  lemma SmallEnd(d: nat, l: nat, w: nat, v: nat, u: State)
    requires u.pods == TwoPods(true, true)
    ensures Small(d, l, w, v).WellFormed() && !AllMet(Small(d, l, w, v), u)
  {
    assert Staying(u, 0) == {};
    assert 0 in Small(d, l, w, v).specs;
    SmallBudgetIsOne(d, l, w, v, 0);
  }

  lemma UnsafeFrom(d: nat, l: nat, w: nat, v: nat, st: Store)
    requires 0 < w && st.Sound() && st.Lasts(l) && st.Free(SLOT, 0) && st.Term(SLOT, d) < w + v
    ensures !Safe(d, l, w, v)
  {
    var cfg, s := Small(d, l, w, v), Fresh(st);
    var t := FirstIsAdmitted(cfg, d, l, w, v, st);
    var u := SecondFollows(cfg, FAIR, d, l, w, v, s, t);
    var steps :| Valid(cfg, s, steps) && Allowed(cfg, FAIR, s, steps) && Final(cfg, s, steps) == u;
    AllowedIsAssumed(cfg, FAIR, s, steps);
    SmallStart(d, l, w, v, st);
    SmallEnd(d, l, w, v, u);
    assert Timed(cfg, d, l, w, v) && FairRun(cfg, s, steps);
  }

  /** If new leases are too short, two evictions overlap on an empty store; if only a lease left
      behind is too short, they overlap by taking that one over. */
  lemma UnsafeIfLate(d: nat, l: nat, w: nat, v: nat)
    requires 0 < w && (d < w + v || l < w + v)
    ensures !Safe(d, l, w, v)
  {
    if d < w + v {
      UnsafeFrom(d, l, w, v, Store(map[], 0));
    } else {
      var long: int := l;
      UnsafeFrom(d, l, w, v, Store(map[SLOT := Lease(0, -long, l, 0)], 1));
    }
  }

  lemma FairRunsStayMet(cfg: Config, s: State, steps: seq<Step>)
    requires FairRun(cfg, s, steps) && cfg.InTime()
    ensures AllMet(cfg, Final(cfg, s, steps))
  {
    BudgetsAlwaysMet(cfg, s, steps);
  }

  lemma SafeIfInTime(d: nat, l: nat, w: nat, v: nat)
    requires w + v <= d && w + v <= l
    ensures Safe(d, l, w, v)
  {
    forall cfg: Config, s: State, steps: seq<Step> | Timed(cfg, d, l, w, v) && FairRun(cfg, s, steps)
      ensures AllMet(cfg, Final(cfg, s, steps))
    {
      FairRunsStayMet(cfg, s, steps);
    }
  }

  /** New leases and those left behind have to outlast the webhook timeout and the time until
      a deletion shows, and that is all the timing there is to it. */
  lemma SafeExactlyWhenInTime(duration: nat, leftover: nat, timeout: nat, visibility: nat)
    requires 0 < timeout
    ensures Safe(duration, leftover, timeout, visibility) <==>
            timeout + visibility <= duration && timeout + visibility <= leftover
  {
    if timeout + visibility <= duration && timeout + visibility <= leftover {
      SafeIfInTime(duration, leftover, timeout, visibility);
    } else {
      UnsafeIfLate(duration, leftover, timeout, visibility);
    }
  }

  /** With the shipped lease duration of 5 s, never configured otherwise, and the shipped
      webhook timeout of 2 s, counted in milliseconds, deletions have to show within 3 s. */
  lemma ShippedDefaults(visibility: nat)
    ensures Safe(5000, 5000, 2000, visibility) <==> visibility <= 3000
  {
    SafeExactlyWhenInTime(5000, 5000, 2000, visibility);
  }
}
