/** None of the assumptions of budget safety can be spared: for each of them there is a run that
    meets all the others and breaks a budget, however generous the durations are. */
module Necessity {
  import opened Int32
  import opened Leases
  import opened Sums
  import opened Budget
  import LP = LockProtocol
  import Runs
  import opened Admission
  import opened Handling
  import opened Timing

  /** A run that starts with every budget met and meets all assumptions but this one. */
  ghost predicate RunWithout(clause: Clause, cfg: Config, s: State, steps: seq<Step>) {
    && cfg.WellFormed() && Start(cfg, s) && AllMet(cfg, s)
    && Valid(cfg, s, steps) && Allowed(cfg, Rules(Some(clause), false), s, steps)
  }

  /** Even without the clause, no run with these durations ever breaks a budget. */
  ghost predicate SafeWithout(clause: Clause, duration: nat, leftover: nat, timeout: nat, visibility: nat) {
    forall cfg: Config, s: State, steps: seq<Step> ::
      Timed(cfg, duration, leftover, timeout, visibility) && RunWithout(clause, cfg, s, steps) ==>
        AllMet(cfg, Final(cfg, s, steps))
  }

  lemma BreaksBudget(clause: Clause, cfg: Config, s: State, u: State)
    requires cfg.WellFormed() && Start(cfg, s) && AllMet(cfg, s)
    requires Reaches(cfg, Rules(Some(clause), false), s, u) && !AllMet(cfg, u)
    ensures !SafeWithout(clause, cfg.duration, cfg.leftover, cfg.timeout, cfg.visibility)
  {
    var steps :| Valid(cfg, s, steps) && Allowed(cfg, Rules(Some(clause), false), s, steps) && Final(cfg, s, steps) == u;
    assert Timed(cfg, cfg.duration, cfg.leftover, cfg.timeout, cfg.visibility) && RunWithout(clause, cfg, s, steps);
  }

  /** In the small world it is enough to lose both pods. */
  lemma SmallBreaks(clause: Clause, d: nat, l: nat, w: nat, v: nat, u: State)
    requires Small(d, l, w, v).WellFormed() && u.pods == TwoPods(true, true)
    requires Reaches(Small(d, l, w, v), Rules(Some(clause), false), Fresh(NOTHING), u)
    ensures !SafeWithout(clause, d, l, w, v)
  {
    SmallStart(d, l, w, v, NOTHING);
    SmallEnd(d, l, w, v, u);
    BreaksBudget(clause, Small(d, l, w, v), Fresh(NOTHING), u);
  }

  const NOTHING: Store := Store(map[], 0)

  lemma SmallIsWellFormed(d: nat, l: nat, w: nat, v: nat)
    ensures Small(d, l, w, v).WellFormed()
  {
  }

  // ----- evictions that show too late

  lemma VisibleIsNeeded(d: nat, l: nat, w: nat, v: nat)
    requires 0 < w
    ensures !SafeWithout(Visible, d, l, w, v)
  {
    var cfg, s := Small(d, l, w, v), Fresh(NOTHING);
    var rules := Rules(Some(Visible), false);
    SmallIsWellFormed(d, l, w, v);
    ReachesSelf(cfg, rules, s);
    var u := SmallIsAdmitted(cfg, rules, d, l, w, v, s, s, 1, 0);
    ReachesNext(cfg, rules, s, u, Tick(d));
    var t := u.(lock := u.lock.(now := d));
    var end := SecondFollows(cfg, rules, d, l, w, v, s, t);
    SmallBreaks(Visible, d, l, w, v, end);
  }

  // ----- losses outside the budget

  lemma NoLossesIsNeeded(d: nat, l: nat, w: nat, v: nat)
    ensures !SafeWithout(NoLosses, d, l, w, v)
  {
    var cfg, s := Small(d, l, w, v), Fresh(NOTHING);
    var rules := Rules(Some(NoLosses), false);
    SmallIsWellFormed(d, l, w, v);
    ReachesSelf(cfg, rules, s);
    ReachesNext(cfg, rules, s, s, Lose(0, true));
    var s1 := s.(pods := TwoPods(true, false));
    PodsGo();
    ReachesNext(cfg, rules, s, s1, Lose(1, true));
    SmallBreaks(NoLosses, d, l, w, v, s.(pods := TwoPods(true, true)));
  }

  // ----- a stale snapshot

  /** One of the two pods is going already, and the budget is used up. */
  function UsedUp(): State {
    Fresh(NOTHING).(pods := TwoPods(true, false))
  }

  lemma UsedUpIsMet(d: nat, l: nat, w: nat, v: nat)
    ensures Small(d, l, w, v).WellFormed() && AllMet(Small(d, l, w, v), UsedUp())
  {
    assert Staying(UsedUp(), 0) == {1};
    SmallBudgetIsOne(d, l, w, v, 1);
  }

  lemma StalePasses(d: nat, l: nat, w: nat, v: nat)
    ensures Small(d, l, w, v).WellFormed()
    ensures Passes(Small(d, l, w, v), TwoPods(true, false), AskFor(1, 1, false))
  {
    var lists := FullLists(TwoPods(true, false), AskFor(1, 1, false));
    assert HealthyAt(TwoPods(true, false), 0, 0) == {1};
    assert lists == [{1}];
    assert Sizes(lists) == [1];
    assert Sum([1]) == 1 by {
      assert [1][..0] == [];
    }
  }

  lemma StaleMayAsk(cfg: Config, rules: Rules, d: nat, l: nat, w: nat, v: nat)
    requires cfg == Small(d, l, w, v) && cfg.WellFormed() && rules == Rules(Some(FreshSnapshot), false)
    ensures MayAsk(cfg, rules, UsedUp(), AskFor(1, 1, false))
  {
    assert Members([0]) == {0} by {
      assert 0 in [0];
    }
  }

  lemma StaleIsAdmitted(cfg: Config, rules: Rules, s: State, a: Ask) returns (u: State)
    requires cfg.WellFormed() && 0 < cfg.timeout && Reaches(cfg, rules, s, s) && MayAsk(cfg, rules, s, a)
    requires Passes(cfg, s.pods, a)
    ensures Reaches(cfg, rules, s, u) && IsAdmitted(u, a.id) && u.requests[a.id].candidate == a.pod && u.pods == s.pods
  {
    u := GetsAdmitted(cfg, rules, s, s, a);
  }

  lemma FreshSnapshotIsNeeded(d: nat, l: nat, w: nat, v: nat)
    requires 0 < w
    ensures !SafeWithout(FreshSnapshot, d, l, w, v)
  {
    var cfg, s, a := Small(d, l, w, v), UsedUp(), AskFor(1, 1, false);
    var rules := Rules(Some(FreshSnapshot), false);
    UsedUpIsMet(d, l, w, v);
    StalePasses(d, l, w, v);
    ReachesSelf(cfg, rules, s);
    StaleMayAsk(cfg, rules, d, l, w, v);
    var u := StaleIsAdmitted(cfg, rules, s, a);
    TakesEffect(cfg, rules, s, u, 1);
    PodsGo();
    SmallEnd(d, l, w, v, AfterEvict(u, 1));
    BreaksBudget(FreshSnapshot, cfg, s, AfterEvict(u, 1));
  }

  // ----- a Delete after its deadline

  /** Request 3 is alone in the small world; it was denied and has this unlock task before it. */
  predicate Denies(u: State, task: LP.UnlockTask) {
    && u.requests.Keys == {3} && u.requests[3].phase == Denied && u.pods == TwoPods(false, false)
    && u.lock.requests.Keys == {3} && LP.HasTask(u.lock, 3, 0) && u.lock.requests[3].status == LP.Releasing
    && u.lock.requests[3].At(0) == SLOT && u.lock.requests[3].unlocks[0] == task
  }

  /** It locks at time 0 ... */
  lemma LocksFirst(cfg: Config, rules: Rules, d: nat, l: nat, w: nat, v: nat) returns (c: State)
    requires cfg == Small(d, l, w, v) && cfg.WellFormed()
    ensures Reaches(cfg, rules, Fresh(NOTHING), c)
    ensures Stands(cfg, Fresh(NOTHING), c, AskFor(3, 0, true), 0, Collecting, LP.Granted)
    ensures Runs.HeldAnew(d, Fresh(NOTHING).lock, c.lock, 3, SLOT)
  {
    var s, a := Fresh(NOTHING), AskFor(3, 0, true);
    ReachesSelf(cfg, rules, s);
    SmallMayAsk(cfg, rules, s, d, l, w, v, 3, 0);
    c := CollectsAll(cfg, rules, s, s, a);
    assert 0 in a.clusters && SlotFor(cfg, a, 0) == SLOT;
  }

  /** ... and is denied. */
  lemma IsDenied(cfg: Config, rules: Rules, d: nat, l: nat, w: nat, v: nat) returns (u: State)
    requires cfg == Small(d, l, w, v) && cfg.WellFormed()
    ensures Reaches(cfg, rules, Fresh(NOTHING), u) && Denies(u, LP.Untouched) && u.lock.now == 0
    ensures Runs.HeldAnew(d, Fresh(NOTHING).lock, u.lock, 3, SLOT)
  {
    var c := LocksFirst(cfg, rules, d, l, w, v);
    GivesUp(cfg, rules, Fresh(NOTHING), c, AskFor(3, 0, true));
    u := DenyAndUnlock(cfg, c, 3);
  }

  lemma GivesUp(cfg: Config, rules: Rules, s: State, c: State, a: Ask)
    requires cfg.WellFormed() && Reaches(cfg, rules, s, c) && a.id in c.requests && a.id in c.lock.requests
    requires OwnAsk(s, c.requests[a.id], a, 0, Collecting) && OwnCall(cfg, s, c.lock.requests[a.id], a, LP.Granted)
    ensures LP.Enabled(c.lock, LP.BeginUnlock(a.id)) && Reaches(cfg, rules, s, DenyAndUnlock(cfg, c, a.id))
  {
    ReachesNext(cfg, rules, s, c, CollectFails(a.id));
  }

  /** It finds its own lease, so its Delete will follow. */
  lemma ChecksHolder(cfg: Config, rules: Rules, s: State, u: State) returns (u': State)
    requires cfg.WellFormed() && Reaches(cfg, rules, s, u) && Denies(u, LP.Untouched)
    requires SLOT in u.lock.store.leases && u.lock.store.leases[SLOT].holder == 3
    ensures Reaches(cfg, rules, s, u') && Denies(u', LP.Matched)
    ensures u'.lock.store == u.lock.store && u'.lock.now == u.lock.now
  {
    ReachesNext(cfg, rules, s, u, LockWork(LP.UnlockGet(3, 0)));
    u' := u.(lock := LP.WithUnlock(u.lock, 3, 0, LP.Matched));
  }

  /** Its lease expires while the Delete is on its way. */
  lemma LateUnlocker(cfg: Config, rules: Rules, d: nat, l: nat, w: nat, v: nat) returns (t: State)
    requires cfg == Small(d, l, w, v) && cfg.WellFormed()
    ensures Reaches(cfg, rules, Fresh(NOTHING), t) && Denies(t, LP.Matched)
    ensures t.lock.store.Free(SLOT, t.lock.now)
  {
    var s := Fresh(NOTHING);
    var u := IsDenied(cfg, rules, d, l, w, v);
    u := ChecksHolder(cfg, rules, s, u);
    Waits(cfg, rules, s, u, d);
    t := u.(lock := u.lock.(now := d));
  }

  lemma DeleteLands(cfg: Config, rules: Rules, s: State, t: State) returns (t': State)
    requires cfg.WellFormed() && Reaches(cfg, rules, s, t) && rules == Rules(Some(TimelyUnlock), false)
    requires LP.Enabled(t.lock, LP.Delete(3, 0)) && t.lock.requests[3].At(0) == SLOT
    ensures Reaches(cfg, rules, s, t') && t'.requests == t.requests && t'.pods == t.pods
    ensures t'.lock.now == t.lock.now && t'.lock.requests.Keys == t.lock.requests.Keys
    ensures SLOT !in t'.lock.store.leases
  {
    ReachesNext(cfg, rules, s, t, LockWork(LP.Delete(3, 0)));
    t' := t.(lock := LP.WithUnlock(t.lock, 3, 0, LP.Deleted).(store := t.lock.store.Remove(SLOT)));
  }

  lemma StillDeletes(t: State, c: State)
    requires Denies(t, LP.Matched) && SameOthers(t, c, 1)
    ensures LP.Enabled(c.lock, LP.Delete(3, 0)) && c.lock.requests[3].At(0) == SLOT
    ensures c.requests.Keys == {1, 3} && c.lock.requests.Keys == {1, 3} && c.pods == TwoPods(false, false)
  {
    assert c.lock.requests[3] == t.lock.requests[3];
  }

  /** Request 1 enters on the expired lease, and then the Delete takes its lease away. */
  lemma LosesLease(cfg: Config, rules: Rules, d: nat, l: nat, w: nat, v: nat, s: State, t: State) returns (u: State)
    requires cfg == Small(d, l, w, v) && cfg.WellFormed() && 0 < w && rules == Rules(Some(TimelyUnlock), false)
    requires Reaches(cfg, rules, s, t) && Denies(t, LP.Matched) && t.lock.store.Free(SLOT, t.lock.now)
    ensures Reaches(cfg, rules, s, u) && IsAdmitted(u, 1) && u.requests[1].candidate == 0
    ensures u.pods == TwoPods(false, false) && 2 !in u.requests && 2 !in u.lock.requests
    ensures SLOT !in u.lock.store.leases
  {
    var c := SmallIsAdmitted(cfg, rules, d, l, w, v, s, t, 1, 0);
    StillDeletes(t, c);
    u := DeleteLands(cfg, rules, s, c);
  }

  lemma TimelyUnlockIsNeeded(d: nat, l: nat, w: nat, v: nat)
    requires 0 < w
    ensures !SafeWithout(TimelyUnlock, d, l, w, v)
  {
    var cfg, s := Small(d, l, w, v), Fresh(NOTHING);
    var rules := Rules(Some(TimelyUnlock), false);
    SmallIsWellFormed(d, l, w, v);
    var t := LateUnlocker(cfg, rules, d, l, w, v);
    t := LosesLease(cfg, rules, d, l, w, v, s, t);
    var end := SecondFollows(cfg, rules, d, l, w, v, s, t);
    SmallBreaks(TimelyUnlock, d, l, w, v, end);
  }

  // ----- requests that do not ask every cluster

  /** Two clusters with one pod each, of which one may be unavailable. */
  function Split(d: nat, l: nat, w: nat, v: nat): Config {
    Config(d, l, w, v, {0, 1}, map[0 := Spec(Some(Absolute(1)), None)], map[0 := 0], map[0 := map[0 := 1, 1 := 1]])
  }

  function Apart(): map<PodId, Pod> {
    map[0 := Pod(0, {0}, true, false), 1 := Pod(1, {0}, true, false)]
  }

  function SplitStart(): State {
    Fresh(NOTHING).(pods := Apart())
  }

  lemma SplitBudgetIsOne(d: nat, l: nat, w: nat, v: nat, n: nat)
    ensures Split(d, l, w, v).WellFormed()
    ensures Meets(Split(d, l, w, v), 0, n) <==> n >= 1
  {
    var scale := map[0 := 1, 1 := 1];
    SumInsert<Cluster>(map[], 0, 1);
    SumInsert<Cluster>(map[0 := 1], 1, 1);
    assert map[0 := 1][1 := 1] == scale;
    assert map[][0 := 1] == map[0 := 1];
    assert SumMap<Cluster>(scale) == 2;
  }

  /** Every pod is the only one its own cluster knows of. */
  lemma SplitPasses(d: nat, l: nat, w: nat, v: nat, id: Identity, pod: PodId)
    requires pod < 2
    ensures Split(d, l, w, v).WellFormed()
    ensures Passes(Split(d, l, w, v), Apart(), Ask(id, 0, pod, true, [pod]))
  {
    var cfg, a := Split(d, l, w, v), Ask(id, 0, pod, true, [pod]);
    assert HealthyAt(Apart(), 0, pod) == {pod};
    assert FullLists(Apart(), a) == [{pod}];
    assert Sizes([{pod}]) == [1];
    assert Values(cfg.scale[0], [pod]) == [1];
    assert Sum([1]) == 1 by {
      assert [1][..0] == [];
    }
  }

  /** Request id is admitted for this pod. */
  predicate SeesOff(u: State, id: Identity, pod: PodId) {
    id in u.requests && u.requests[id].phase.Admitted? && u.requests[id].candidate == pod && u.requests[id].budget == 0
  }

  lemma SplitIsAdmitted(cfg: Config, d: nat, l: nat, w: nat, v: nat, t: State, id: Identity, pod: PodId)
    returns (u: State)
    requires cfg == Split(d, l, w, v) && cfg.WellFormed() && 0 < w && pod < 2 && t.pods == Apart()
    requires Reaches(cfg, Rules(Some(Covering), false), SplitStart(), t)
    requires id !in t.requests && id !in t.lock.requests && t.lock.store.Free(Slot(pod, 0), t.lock.now)
    ensures Reaches(cfg, Rules(Some(Covering), false), SplitStart(), u)
    ensures SameOthers(t, u, id) && SeesOff(u, id, pod)
    ensures forall c | c != pod :: Runs.SameSlot(t.lock.store, u.lock.store, Slot(c, 0))
  {
    var a := Ask(id, 0, pod, true, [pod]);
    SplitPasses(d, l, w, v, id, pod);
    SplitMayAsk(cfg, d, l, w, v, t, id, pod);
    u := GetsAdmitted(cfg, Rules(Some(Covering), false), SplitStart(), t, a);
    SplitFacts(cfg, d, l, w, v, t, u, a);
  }

  lemma SplitFacts(cfg: Config, d: nat, l: nat, w: nat, v: nat, t: State, u: State, a: Ask)
    requires cfg == Split(d, l, w, v) && a.budget == 0 && a.clusters == [a.pod]
    requires Stands(cfg, t, u, a, 0, Admitted(t.lock.now), LP.Granted)
    ensures SameOthers(t, u, a.id) && SeesOff(u, a.id, a.pod)
    ensures forall c | c != a.pod :: Runs.SameSlot(t.lock.store, u.lock.store, Slot(c, 0))
  {
    assert OwnAsk(t, u.requests[a.id], a, 0, Admitted(t.lock.now)) && Leased(cfg, t, u, a);
  }

  lemma SplitMayAsk(cfg: Config, d: nat, l: nat, w: nat, v: nat, t: State, id: Identity, pod: PodId)
    requires cfg == Split(d, l, w, v) && cfg.WellFormed() && pod < 2 && t.pods == Apart()
    requires id !in t.requests && id !in t.lock.requests && t.lock.store.Free(Slot(pod, 0), t.lock.now)
    ensures MayAsk(cfg, Rules(Some(Covering), false), t, Ask(id, 0, pod, true, [pod]))
  {
  }

  lemma SplitEnds(d: nat, l: nat, w: nat, v: nat, u: State)
    requires u.pods == Apart() && SeesOff(u, 1, 0) && SeesOff(u, 2, 1)
    ensures Split(d, l, w, v).WellFormed() && !AllMet(Split(d, l, w, v), u)
  {
    assert HealthyPods(Apart(), 0) <= {0, 1};
    assert u.requests[1].candidate in Unseen(u, 0) && u.requests[2].candidate in Unseen(u, 0);
    assert Staying(u, 0) == {};
    assert 0 in Split(d, l, w, v).specs;
    SplitBudgetIsOne(d, l, w, v, 0);
  }

  lemma SplitStartIsMet(d: nat, l: nat, w: nat, v: nat)
    ensures Split(d, l, w, v).WellFormed() && AllMet(Split(d, l, w, v), SplitStart())
  {
    assert HealthyPods(Apart(), 0) == {0, 1};
    assert Unseen(SplitStart(), 0) == {};
    assert |Staying(SplitStart(), 0)| == |{0, 1}|;
    SplitBudgetIsOne(d, l, w, v, 2);
  }

  lemma CoveringIsNeeded(d: nat, l: nat, w: nat, v: nat)
    requires 0 < w
    ensures !SafeWithout(Covering, d, l, w, v)
  {
    var cfg, s := Split(d, l, w, v), SplitStart();
    SplitStartIsMet(d, l, w, v);
    ReachesSelf(cfg, Rules(Some(Covering), false), s);
    var u1 := SplitIsAdmitted(cfg, d, l, w, v, s, 1, 0);
    assert Runs.SameSlot(s.lock.store, u1.lock.store, Slot(1, 0));
    var u2 := SplitIsAdmitted(cfg, d, l, w, v, u1, 2, 1);
    assert u2.requests[1] == u1.requests[1];
    SplitEnds(d, l, w, v, u2);
    BreaksBudget(Covering, cfg, s, u2);
  }

  /** Every clause is needed, whatever the durations: also when all leases outlast the webhook
      timeout and the time until a deletion shows. */
  lemma EveryClauseIsNeeded(clause: Clause, duration: nat, leftover: nat, timeout: nat, visibility: nat)
    requires 0 < timeout
    ensures !SafeWithout(clause, duration, leftover, timeout, visibility)
  {
    match clause
    case Visible => VisibleIsNeeded(duration, leftover, timeout, visibility);
    case Covering => CoveringIsNeeded(duration, leftover, timeout, visibility);
    case TimelyUnlock => TimelyUnlockIsNeeded(duration, leftover, timeout, visibility);
    case FreshSnapshot => FreshSnapshotIsNeeded(duration, leftover, timeout, visibility);
    case NoLosses => NoLossesIsNeeded(duration, leftover, timeout, visibility);
  }
}
