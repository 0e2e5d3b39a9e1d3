/** Building runs of the lease lock step by step: the steps of one LocalLock, and a request that
    takes a single slot on its own. */
module Runs {
  import opened Leases
  import opened LockProtocol

  /** What is asked of a run: that it is timely, and that it has steps of single calls only. */
  datatype Rules = Rules(timely: bool, working: bool)

  const ANY: Rules := Rules(false, false)
  const TIMELY: Rules := Rules(true, false)
  const WORKING: Rules := Rules(true, true)

  predicate Allows(rules: Rules, s: State, step: Step)
    requires Enabled(s, step)
  {
    (rules.timely ==> Timely(s, step)) && (rules.working ==> IsTaskWork(step))
  }

  predicate Allowed(duration: nat, rules: Rules, s: State, steps: seq<Step>)
    requires Valid(duration, s, steps)
  {
    (rules.timely ==> AllTimely(duration, s, steps)) && (rules.working ==> forall step | step in steps :: IsTaskWork(step))
  }

  /** There is such a run from s to t. */
  ghost predicate Reaches(duration: nat, rules: Rules, s: State, t: State) {
    exists steps :: Valid(duration, s, steps) && Final(duration, s, steps) == t && Allowed(duration, rules, s, steps)
  }

  lemma ReachesSelf(duration: nat, rules: Rules, s: State)
    ensures Reaches(duration, rules, s, s)
  {
    assert Valid(duration, s, []) && Final(duration, s, []) == s && Allowed(duration, rules, s, []);
  }

  lemma {:induction false} Append(duration: nat, rules: Rules, s: State, steps: seq<Step>, step: Step)
    requires Valid(duration, s, steps) && Allowed(duration, rules, s, steps)
    requires Enabled(Final(duration, s, steps), step) && Allows(rules, Final(duration, s, steps), step)
    ensures Valid(duration, s, steps + [step]) && Allowed(duration, rules, s, steps + [step])
    ensures Final(duration, s, steps + [step]) == Apply(duration, Final(duration, s, steps), step)
    decreases |steps|
  {
    if steps == [] {
      assert [step][1..] == [];
    } else {
      assert (steps + [step])[1..] == steps[1..] + [step];
      Append(duration, rules, Apply(duration, s, steps[0]), steps[1..], step);
    }
  }

  lemma ReachesNext(duration: nat, rules: Rules, s: State, t: State, step: Step)
    requires Reaches(duration, rules, s, t) && Enabled(t, step) && Allows(rules, t, step)
    ensures Reaches(duration, rules, s, Apply(duration, t, step))
  {
    var steps :| Valid(duration, s, steps) && Final(duration, s, steps) == t && Allowed(duration, rules, s, steps);
    Append(duration, rules, s, steps, step);
  }

  lemma Waits(duration: nat, rules: Rules, s: State, t: State, elapsed: nat)
    requires Reaches(duration, rules, s, t) && !rules.working
    ensures Reaches(duration, rules, s, t.(now := t.now + elapsed))
  {
    ReachesNext(duration, rules, s, t, Tick(elapsed));
  }

  // ----- the steps of one LocalLock

  /** State b at a later time and with another store, task i of request id moved on. */
  function Moved(b: State, now: Time, st: Store, id: Identity, i: nat, task: LockTask): State
    requires HasTask(b, id, i)
  {
    WithLock(b, id, i, task).(now := now, store := st)
  }

  lemma MoveOn(duration: nat, rules: Rules, s: State, b: State, now: Time, st: Store, id: Identity, i: nat,
               task: LockTask, step: Step, st': Store, task': LockTask)
    requires HasTask(b, id, i)
    requires
      var c := Moved(b, now, st, id, i, task);
      && Reaches(duration, rules, s, c) && Enabled(c, step) && IsTaskWork(step) && !step.Delete? && HasTask(c, id, i)
      && Apply(duration, c, step) == WithLock(c, id, i, task').(store := st')
    ensures Reaches(duration, rules, s, Moved(b, now, st', id, i, task'))
  {
    var r := b.requests[id];
    assert r.locks[i := task][i := task'] == r.locks[i := task'];
    var c := Moved(b, now, st, id, i, task);
    assert WithLock(c, id, i, task').requests == Moved(b, now, st', id, i, task').requests;
    ReachesNext(duration, rules, s, c, step);
  }

  lemma Lingers(duration: nat, rules: Rules, s: State, b: State, now: Time, st: Store, id: Identity, i: nat,
                task: LockTask, later: Time)
    requires HasTask(b, id, i) && now <= later && Reaches(duration, rules, s, Moved(b, now, st, id, i, task))
    requires rules.working ==> now == later
    ensures Reaches(duration, rules, s, Moved(b, later, st, id, i, task))
  {
    if now < later {
      Waits(duration, rules, s, Moved(b, now, st, id, i, task), later - now);
    }
  }

  lemma StandsStill(b: State, id: Identity, i: nat)
    requires HasTask(b, id, i)
    ensures Moved(b, b.now, b.store, id, i, b.requests[id].locks[i]) == b
  {
    var r := b.requests[id];
    assert r.locks[i := r.locks[i]] == r.locks;
    assert Moved(b, b.now, b.store, id, i, r.locks[i]).requests == b.requests;
  }

  lemma Templates(duration: nat, rules: Rules, s: State, b: State, stamp: Time, id: Identity, i: nat)
    requires Reaches(duration, rules, s, b) && Enabled(b, BuildTemplate(id, i)) && b.now <= stamp
    requires rules.working ==> b.now == stamp
    ensures Reaches(duration, rules, s, Moved(b, stamp, b.store, id, i, Creating(stamp)))
  {
    StandsStill(b, id, i);
    Lingers(duration, rules, s, b, b.now, b.store, id, i, Idle, stamp);
    MoveOn(duration, rules, s, b, stamp, b.store, id, i, Idle, BuildTemplate(id, i), b.store, Creating(stamp));
  }

  /** Up to the Update, on a slot with an expired lease. */
  lemma Prepares(duration: nat, rules: Rules, s: State, b: State, stamp: Time, id: Identity, i: nat)
    requires HasTask(b, id, i)
    requires Reaches(duration, rules, s, Moved(b, stamp, b.store, id, i, Creating(stamp)))
    requires b.requests[id].At(i) in b.store.leases && b.store.Free(b.requests[id].At(i), stamp)
    ensures Reaches(duration, rules, s, Moved(b, stamp, b.store, id, i,
                                               Updating(b.store.leases[b.requests[id].At(i)], stamp)))
  {
    var st, seen := b.store, b.store.leases[b.requests[id].At(i)];
    MoveOn(duration, rules, s, b, stamp, st, id, i, Creating(stamp), Create(id, i, false), st, Exists);
    MoveOn(duration, rules, s, b, stamp, st, id, i, Exists, Get(id, i), st, Read(seen));
    MoveOn(duration, rules, s, b, stamp, st, id, i, Read(seen), CheckDeadline(id, i), st, Expired(seen));
    MoveOn(duration, rules, s, b, stamp, st, id, i, Expired(seen), Restamp(id, i), st, Updating(seen, stamp));
  }

  /** The lease that a LocalLock gets on the slot, and the store once it has it. */
  function LeaseOf(duration: nat, st: Store, id: Identity, slot: Slot, stamp: Time): Lease {
    Lease(id, stamp, st.Term(slot, duration), st.nextVersion)
  }

  function Taken(duration: nat, st: Store, id: Identity, slot: Slot, stamp: Time): Store {
    st.Write(slot, id, stamp, st.Term(slot, duration))
  }

  /** The steps that write the lease, all at the time of its stamp; lost: the caller is not told. */
  lemma Writes(duration: nat, rules: Rules, s: State, b: State, stamp: Time, id: Identity, i: nat, lost: bool)
    requires Reaches(duration, rules, s, b) && Enabled(b, BuildTemplate(id, i)) && b.now <= stamp
    requires b.store.Free(b.requests[id].At(i), stamp) && (rules.working ==> b.now == stamp)
    ensures
      var slot := b.requests[id].At(i);
      Reaches(duration, rules, s,
              Moved(b, stamp, Taken(duration, b.store, id, slot, stamp), id, i,
                    if lost then Refused else Acquired(LeaseOf(duration, b.store, id, slot, stamp))))
  {
    var st, slot := b.store, b.requests[id].At(i);
    var st' := Taken(duration, st, id, slot, stamp);
    var task := if lost then Refused else Acquired(LeaseOf(duration, st, id, slot, stamp));
    Templates(duration, rules, s, b, stamp, id, i);
    if slot !in st.leases {
      MoveOn(duration, rules, s, b, stamp, st, id, i, Creating(stamp), Create(id, i, lost), st', task);
    } else {
      Prepares(duration, rules, s, b, stamp, id, i);
      MoveOn(duration, rules, s, b, stamp, st, id, i, Updating(st.leases[slot], stamp), Update(id, i, lost), st', task);
    }
  }

  /** The same when the last call is slow: the lease then carries the stamp from before it. */
  lemma WritesLate(duration: nat, rules: Rules, s: State, b: State, delay: nat, id: Identity, i: nat)
    requires Reaches(duration, rules, s, b) && !rules.working && Enabled(b, BuildTemplate(id, i))
    requires b.store.Free(b.requests[id].At(i), b.now)
    ensures
      var slot := b.requests[id].At(i);
      Reaches(duration, rules, s,
              Moved(b, b.now + delay, Taken(duration, b.store, id, slot, b.now), id, i,
                    Acquired(LeaseOf(duration, b.store, id, slot, b.now))))
  {
    var st, slot, stamp := b.store, b.requests[id].At(i), b.now;
    var st' := Taken(duration, st, id, slot, stamp);
    var task := Acquired(LeaseOf(duration, st, id, slot, stamp));
    Templates(duration, rules, s, b, stamp, id, i);
    if slot !in st.leases {
      Lingers(duration, rules, s, b, stamp, st, id, i, Creating(stamp), stamp + delay);
      MoveOn(duration, rules, s, b, stamp + delay, st, id, i, Creating(stamp), Create(id, i, false), st', task);
    } else {
      Prepares(duration, rules, s, b, stamp, id, i);
      Lingers(duration, rules, s, b, stamp, st, id, i, Updating(st.leases[slot], stamp), stamp + delay);
      MoveOn(duration, rules, s, b, stamp + delay, st, id, i, Updating(st.leases[slot], stamp), Update(id, i, false),
             st', task);
    }
  }

  // ----- one more request, with a single endpoint

  /** State t and store st, with a request q on this slot that began now. */
  function Solo(t: State, st: Store, q: Identity, slot: Slot, task: LockTask, status: Status): State {
    State(t.now, st, t.requests[q := Request(t.now, slot.name, [slot.cluster], [task], [Untouched], status)])
  }

  /** Where a new request q stands that has taken a free slot on its own, all at one instant. */
  function Holding(duration: nat, t: State, q: Identity, slot: Slot): State {
    Solo(t, Taken(duration, t.store, q, slot, t.now), q, slot,
         Acquired(LeaseOf(duration, t.store, q, slot, t.now)), Granted)
  }

  lemma SoloBegins(duration: nat, rules: Rules, s: State, t: State, q: Identity, slot: Slot)
    requires Reaches(duration, rules, s, t) && !rules.working && q !in t.requests
    ensures Reaches(duration, rules, s, Solo(t, t.store, q, slot, Idle, Pending))
  {
    var begin := Begin(q, slot.name, [slot.cluster]);
    assert seq(1, _ => Idle) == [Idle] && seq(1, _ => Untouched) == [Untouched];
    assert Apply(duration, t, begin) == Solo(t, t.store, q, slot, Idle, Pending);
    ReachesNext(duration, rules, s, t, begin);
  }

  lemma TakesFreeSlot(duration: nat, rules: Rules, s: State, t: State, q: Identity, slot: Slot)
    requires Reaches(duration, rules, s, t) && !rules.working && q !in t.requests && t.store.Free(slot, t.now)
    ensures Reaches(duration, rules, s, Holding(duration, t, q, slot))
  {
    SoloBegins(duration, rules, s, t, q, slot);
    var b := Solo(t, t.store, q, slot, Idle, Pending);
    Writes(duration, rules, s, b, t.now, q, 0, false);
    var st, lease := Taken(duration, t.store, q, slot, t.now), LeaseOf(duration, t.store, q, slot, t.now);
    var c := Moved(b, t.now, st, q, 0, Acquired(lease));
    assert c.requests[q].locks == [Acquired(lease)];
    ReachesNext(duration, rules, s, c, Grant(q));
    assert Apply(duration, c, Grant(q)).requests == Holding(duration, t, q, slot).requests;
  }

  // ----- all endpoints of one request

  /** Request id of state b has, in state c, taken its first n slots at this instant; nothing else
      has changed. */
  ghost predicate Locked(duration: nat, b: State, c: State, id: Identity, n: nat) {
    && id in b.requests && b.requests[id].WellShaped() && n <= |b.requests[id].clusters|
    && c.now == b.now && c.requests.Keys == b.requests.Keys
    && (forall q | q in b.requests && q != id :: c.requests[q] == b.requests[q])
    && |c.requests[id].locks| == |b.requests[id].locks|
    && c.requests[id] == b.requests[id].(locks := c.requests[id].locks)
    && (forall i | 0 <= i < |b.requests[id].clusters| ::
          if i < n then c.requests[id].locks[i].Acquired? else c.requests[id].locks[i] == b.requests[id].locks[i])
    && (forall i | 0 <= i < n :: HeldAnew(duration, b, c, id, b.requests[id].At(i)))
    && (forall slot | slot !in SlotsUpTo(b.requests[id], n) :: SameSlot(b.store, c.store, slot))
  }

  /** The slot holds a lease of id from now, with the term it was bound to get. */
  predicate HeldAnew(duration: nat, b: State, c: State, id: Identity, slot: Slot) {
    && slot in c.store.leases && c.store.leases[slot].holder == id && c.store.leases[slot].acquired == b.now
    && c.store.leases[slot].duration == b.store.Term(slot, duration)
  }

  predicate SameSlot(a: Store, b: Store, slot: Slot) {
    (slot in a.leases <==> slot in b.leases) && (slot in a.leases ==> a.leases[slot] == b.leases[slot])
  }

  function SlotsUpTo(r: Request, n: nat): set<Slot>
    requires n <= |r.clusters|
  {
    set i | 0 <= i < n :: r.At(i)
  }

  /** A request that has only begun, on free slots of different clusters. */
  predicate Fresh(b: State, id: Identity) {
    && id in b.requests && b.requests[id].WellShaped()
    && (forall i | 0 <= i < |b.requests[id].clusters| ::
          b.requests[id].locks[i].Idle? && b.store.Free(b.requests[id].At(i), b.now))
    && (forall i, j | 0 <= i < j < |b.requests[id].clusters| :: b.requests[id].clusters[i] != b.requests[id].clusters[j])
  }

  lemma OwnSlotIsNew(b: State, id: Identity, n: nat)
    requires Fresh(b, id) && n < |b.requests[id].clusters|
    ensures b.requests[id].At(n) !in SlotsUpTo(b.requests[id], n)
    ensures SlotsUpTo(b.requests[id], n + 1) == SlotsUpTo(b.requests[id], n) + {b.requests[id].At(n)}
  {
  }

  /** State c once request id has taken slot n as well. */
  function LockedAt(duration: nat, c: State, id: Identity, n: nat): State
    requires HasTask(c, id, n)
  {
    var slot := c.requests[id].At(n);
    Moved(c, c.now, Taken(duration, c.store, id, slot, c.now), id, n,
          Acquired(LeaseOf(duration, c.store, id, slot, c.now)))
  }

  lemma MayLockNext(duration: nat, b: State, c: State, id: Identity, n: nat)
    requires Fresh(b, id) && n < |b.requests[id].clusters| && Locked(duration, b, c, id, n)
    ensures Enabled(c, BuildTemplate(id, n)) && c.requests[id].At(n) == b.requests[id].At(n)
    ensures c.store.Free(b.requests[id].At(n), c.now)
    ensures c.store.Term(b.requests[id].At(n), duration) == b.store.Term(b.requests[id].At(n), duration)
  {
    OwnSlotIsNew(b, id, n);
    assert SameSlot(b.store, c.store, b.requests[id].At(n));
    assert n > 0 ==> c.requests[id].locks[0].Acquired?;
  }

  lemma LockedNext(duration: nat, b: State, c: State, id: Identity, n: nat)
    requires Fresh(b, id) && n < |b.requests[id].clusters| && Locked(duration, b, c, id, n) && HasTask(c, id, n)
    ensures Locked(duration, b, LockedAt(duration, c, id, n), id, n + 1)
  {
    MayLockNext(duration, b, c, id, n);
    var slot, c' := b.requests[id].At(n), LockedAt(duration, c, id, n);
    OwnSlotIsNew(b, id, n);
    forall i | 0 <= i < n + 1
      ensures HeldAnew(duration, b, c', id, b.requests[id].At(i))
    {
      if i < n {
        assert HeldAnew(duration, b, c, id, b.requests[id].At(i));
        assert b.requests[id].At(i) != slot;
      }
    }
    forall other | other !in SlotsUpTo(b.requests[id], n + 1)
      ensures SameSlot(b.store, c'.store, other)
    {
      assert SameSlot(b.store, c.store, other);
    }
  }

  lemma LocksNext(duration: nat, rules: Rules, s: State, b: State, c: State, id: Identity, n: nat) returns (c': State)
    requires Fresh(b, id) && n < |b.requests[id].clusters| && Locked(duration, b, c, id, n)
    requires Reaches(duration, rules, s, c)
    ensures Reaches(duration, rules, s, c') && Locked(duration, b, c', id, n + 1)
  {
    MayLockNext(duration, b, c, id, n);
    LockedNext(duration, b, c, id, n);
    Writes(duration, rules, s, c, c.now, id, n, false);
    c' := LockedAt(duration, c, id, n);
  }

  /** A lone request takes all its slots, one after the other, at one instant. */
  lemma LocksAll(duration: nat, rules: Rules, s: State, b: State, id: Identity) returns (c: State)
    requires Fresh(b, id) && Reaches(duration, rules, s, b)
    ensures Reaches(duration, rules, s, c) && Locked(duration, b, c, id, |b.requests[id].clusters|)
  {
    c := b;
    for n := 0 to |b.requests[id].clusters|
      invariant Reaches(duration, rules, s, c) && Locked(duration, b, c, id, n)
    {
      c := LocksNext(duration, rules, s, b, c, id, n);
    }
  }
}
