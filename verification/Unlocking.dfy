/** When a Delete is harmless: exactly as long as the unlocker's own lease is live. */
module Unlocking {
  import opened Leases
  import opened LockProtocol
  import opened Runs
  import opened Leftovers

  lemma AcquiredStaysStep(duration: nat, s: State, step: Step, id: Identity, i: nat)
    requires Enabled(s, step) && HasTask(s, id, i) && s.requests[id].locks[i].Acquired?
    ensures
      var s' := Apply(duration, s, step);
      && HasTask(s', id, i) && s'.requests[id].locks[i] == s.requests[id].locks[i]
      && s'.requests[id].At(i) == s.requests[id].At(i)
  {
  }

  /** What a LocalLock has acquired it never forgets, whatever else runs. */
  lemma {:induction false} AcquiredStays(duration: nat, s: State, steps: seq<Step>, id: Identity, i: nat)
    requires Valid(duration, s, steps) && HasTask(s, id, i) && s.requests[id].locks[i].Acquired?
    ensures
      var f := Final(duration, s, steps);
      && HasTask(f, id, i) && f.requests[id].locks[i] == s.requests[id].locks[i]
      && f.requests[id].At(i) == s.requests[id].At(i)
    decreases |steps|
  {
    if steps != [] {
      AcquiredStaysStep(duration, s, steps[0], id, i);
      AcquiredStays(duration, Apply(duration, s, steps[0]), steps[1..], id, i);
    }
  }

  /** A Delete now would remove another lease than the one that this LocalLock acquired. */
  predicate HitsAnother(s: State, id: Identity, i: nat)
    requires HasTask(s, id, i)
  {
    var slot := s.requests[id].At(i);
    slot in s.store.leases && LockProtocol.Acquired(s.store.leases[slot]) != s.requests[id].locks[i]
  }

  /** Whatever happens before the Delete lands at this same instant, it removes no other lease
      than the unlocker's own. */
  ghost predicate Harmless(duration: nat, s: State, id: Identity, i: nat) {
    forall steps :: (&& Valid(duration, s, steps) && AllTimely(duration, s, steps)
                     && Final(duration, s, steps).now == s.now
                     && Enabled(Final(duration, s, steps), Delete(id, i))) ==>
                    !HitsAnother(Final(duration, s, steps), id, i)
  }

  lemma HarmlessWhileLive(duration: nat, s: State, id: Identity, i: nat)
    requires Consistent(s) && Held(s) && Enabled(s, Delete(id, i)) && Timely(s, Delete(id, i))
    ensures Harmless(duration, s, id, i)
  {
    forall steps | && Valid(duration, s, steps) && AllTimely(duration, s, steps)
                   && Final(duration, s, steps).now == s.now
                   && Enabled(Final(duration, s, steps), Delete(id, i))
      ensures !HitsAnother(Final(duration, s, steps), id, i)
    {
      RunKeepsHeld(duration, s, steps);
      AcquiredStays(duration, s, steps, id, i);
      TimelyDeleteFindsOwnLease(Final(duration, s, steps), id, i);
    }
  }

  /** Once the slot is free, any request q can step in between the holder check and the Delete:
      q is granted its lease, and the Delete takes exactly that lease away. */
  lemma HarmfulOnceFree(duration: nat, s: State, id: Identity, i: nat, q: Identity) returns (f: State)
    requires Enabled(s, Delete(id, i)) && q !in s.requests
    requires s.store.Free(s.requests[id].At(i), s.now)
    ensures
      var slot := s.requests[id].At(i);
      && Reaches(duration, TIMELY, s, f) && f.now == s.now && Enabled(f, Delete(id, i))
      && f.requests[id] == s.requests[id] && q in f.requests && f.requests[q].status.Granted?
      && f.requests[q].clusters == [slot.cluster] && f.requests[q].name == slot.name
      && slot in f.store.leases && f.store.leases[slot] == LeaseOf(duration, s.store, q, slot, s.now)
      && (Live(f.store.leases[slot], f.now) <==> 0 < s.store.Term(slot, duration))
      && slot !in Apply(duration, f, Delete(id, i)).store.leases
  {
    var slot := s.requests[id].At(i);
    ReachesSelf(duration, TIMELY, s);
    TakesFreeSlot(duration, TIMELY, s, s, q, slot);
    f := Holding(duration, s, q, slot);
  }

  lemma HarmfulOnceExpired(duration: nat, s: State, id: Identity, i: nat, q: Identity)
    requires Consistent(s) && Enabled(s, Delete(id, i)) && q !in s.requests
    requires s.requests[id].locks[i].Acquired? && !Live(s.requests[id].locks[i].lease, s.now)
    ensures !Harmless(duration, s, id, i)
  {
    if HitsAnother(s, id, i) {
      assert Valid(duration, s, []) && AllTimely(duration, s, []) && Final(duration, s, []) == s;
    } else {
      var f := HarmfulOnceFree(duration, s, id, i, q);
      assert RequestSound(s.now, s.store, id, s.requests[id]);
      assert TaskSound(s.now, s.store, id, s.requests[id], i);
      assert HitsAnother(f, id, i);
      var steps :| Valid(duration, s, steps) && Final(duration, s, steps) == f
                   && Allowed(duration, TIMELY, s, steps);
    }
  }

  /** A Delete is harmless if and only if the unlocker's own lease has not reached its
      deadline; the code does not check this before it deletes. */
  lemma HarmlessExactlyWhileLive(duration: nat, s: State, steps: seq<Step>, id: Identity, i: nat, q: Identity)
    requires Initial(s) && Valid(duration, s, steps) && AllTimely(duration, s, steps)
    requires Enabled(Final(duration, s, steps), Delete(id, i)) && q !in Final(duration, s, steps).requests
    ensures
      var f := Final(duration, s, steps);
      && f.requests[id].locks[i].Acquired?
      && (Harmless(duration, f, id, i) <==> Live(f.requests[id].locks[i].lease, f.now))
  {
    RunKeepsHeld(duration, s, steps);
    var f := Final(duration, s, steps);
    assert RequestSound(f.now, f.store, id, f.requests[id]);
    if Live(f.requests[id].locks[i].lease, f.now) {
      HarmlessWhileLive(duration, f, id, i);
    } else {
      HarmfulOnceExpired(duration, f, id, i, q);
    }
  }

  // ----- one late Delete ends mutual exclusion

  /** Request 1 as it goes through Unlock. */
  function Unlocker(r: Request, task: UnlockTask): Request {
    r.(status := Releasing, unlocks := [task])
  }

  lemma UnlocksUpToMatched(duration: nat, s: State, t: State, slot: Slot)
    requires Reaches(duration, ANY, s, Holding(duration, t, 1, slot))
    ensures
      var h := Holding(duration, t, 1, slot);
      Reaches(duration, ANY, s, h.(requests := h.requests[1 := Unlocker(h.requests[1], Matched)]))
  {
    var h := Holding(duration, t, 1, slot);
    ReachesNext(duration, ANY, s, h, BeginUnlock(1));
    var h1 := Apply(duration, h, BeginUnlock(1));
    assert h1.requests[1] == Unlocker(h.requests[1], Untouched);
    ReachesNext(duration, ANY, s, h1, UnlockGet(1, 0));
    assert [Untouched][0 := Matched] == [Matched];
    assert Apply(duration, h1, UnlockGet(1, 0)).requests == h.requests[1 := Unlocker(h.requests[1], Matched)];
  }

  lemma DeleteLands(duration: nat, s: State, t: State, r: Request, slot: Slot)
    requires Reaches(duration, ANY, s, t) && 1 in t.requests && r.clusters == [slot.cluster] && r.name == slot.name
    requires |r.locks| == 1 && t.requests[1] == Unlocker(r, Matched)
    ensures Reaches(duration, ANY, s, State(t.now, t.store.Remove(slot), t.requests[1 := Unlocker(r, Deleted)]))
  {
    ReachesNext(duration, ANY, s, t, Delete(1, 0));
    assert [Matched][0 := Deleted] == [Deleted];
    assert Apply(duration, t, Delete(1, 0)) ==
           State(t.now, t.store.Remove(slot), t.requests[1 := Unlocker(r, Deleted)]);
  }

  /** Request 1 locks, unlocks up to its holder check, and its lease expires. */
  lemma StaleUnlocker(duration: nat, s: State, slot: Slot) returns (t: State, r: Request)
    requires Initial(s) && slot !in s.store.leases
    ensures Reaches(duration, ANY, s, t) && t.store == Taken(duration, s.store, 1, slot, s.now)
    ensures t.now == s.now + duration && t.requests == map[1 := Unlocker(r, Matched)]
    ensures r.clusters == [slot.cluster] && r.name == slot.name && |r.locks| == 1
  {
    ReachesSelf(duration, ANY, s);
    TakesFreeSlot(duration, ANY, s, s, 1, slot);
    var h := Holding(duration, s, 1, slot);
    UnlocksUpToMatched(duration, s, s, slot);
    r := h.requests[1];
    var s1 := h.(requests := h.requests[1 := Unlocker(r, Matched)]);
    Waits(duration, ANY, s, s1, duration);
    t := s1.(now := s1.now + duration);
    assert h.requests[1 := Unlocker(r, Matched)] == map[1 := Unlocker(r, Matched)];
  }

  /** From any start and on any slot that is empty there: request 1 locks and unlocks up to
      its holder check, its lease expires, request 2 takes the slot over, the Delete of 1
      lands, and request 3 enters.  Requests 2 and 3 are then protected on one slot. */
  lemma LateDeleteBreaksExclusion(duration: nat, s: State, slot: Slot) returns (f: State)
    requires 0 < duration && Initial(s) && slot !in s.store.leases
    ensures Reaches(duration, ANY, s, f) && Clash(duration, f, 2, 0, 3, 0)
  {
    var s2, r := StaleUnlocker(duration, s, slot);
    TakesFreeSlot(duration, ANY, s, s2, 2, slot);
    var s3 := Holding(duration, s2, 2, slot);
    DeleteLands(duration, s, s3, r, slot);
    var s4 := State(s3.now, s3.store.Remove(slot), s3.requests[1 := Unlocker(r, Deleted)]);
    TakesFreeSlot(duration, ANY, s, s4, 3, slot);
    f := Holding(duration, s4, 3, slot);
  }
}
