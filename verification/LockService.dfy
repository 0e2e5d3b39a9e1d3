/** The lock service as it runs: API calls that change the lease stores one after the other.

    Here nobody else runs in between; module LockProtocol covers every interleaving of the
    same calls.  The API servers and the clock are one object: time moves on at every
    reading, and unless the servers are reliable any call may fail, with or without effect. */
module LockService {
  import opened Leases
  import opened Sums
  import opened ApiTrace

  class ApiServers {
    const reliable: bool
    var store: Store
    var now: Time
    ghost var trace: seq<Event>

    constructor (reliable: bool, store: Store, now: Time)
      ensures this.reliable == reliable && this.store == store && this.now == now && trace == []
    {
      this.reliable, this.store, this.now, this.trace := reliable, store, now, [];
    }

    method ReadClock() returns (t: Time)
      modifies this`now, this`trace
      ensures t == now && old(now) <= now && trace == old(trace) + [Clock(t)]
    {
      var elapsed: nat :| 0 <= elapsed;
      now := now + elapsed;
      t := now;
      trace := trace + [Clock(t)];
    }

    /** Whether a call goes wrong. */
    method Fault() returns (fault: bool)
      ensures fault ==> !reliable
    {
      fault := *;
      fault := fault && !reliable;
    }

    method Create(slot: Slot, holder: Identity, acquired: Time, duration: nat) returns (answer: CreateAnswer)
      modifies this`store, this`trace
      ensures trace == old(trace) + [Creates(slot, holder, acquired, duration, answer)]
      ensures answer.Created? ==> slot !in old(store.leases) && store == old(store).Write(slot, holder, acquired, duration)
      ensures answer.AlreadyExists? ==> slot in old(store.leases) && store == old(store)
      ensures answer.CreateFailed? ==>
                && !reliable
                && (store == old(store)
                    || (slot !in old(store.leases) && store == old(store).Write(slot, holder, acquired, duration)))
    {
      var before := Fault();
      if before {
        answer := CreateFailed;
      } else if slot in store.leases {
        answer := AlreadyExists;
      } else {
        store := store.Write(slot, holder, acquired, duration);
        var after := Fault();
        answer := if after then CreateFailed else Created;
      }
      trace := trace + [Creates(slot, holder, acquired, duration, answer)];
    }

    method Get(slot: Slot) returns (answer: GetAnswer)
      modifies this`trace
      ensures trace == old(trace) + [Gets(slot, answer)]
      ensures answer.Found? ==> slot in store.leases && answer.lease == store.leases[slot]
      ensures answer.Missing? ==> slot !in store.leases
      ensures answer.GetFailed? ==> !reliable
    {
      var fault := Fault();
      if fault {
        answer := GetFailed;
      } else {
        answer := if slot in store.leases then Found(store.leases[slot]) else Missing;
      }
      trace := trace + [Gets(slot, answer)];
    }

    /** Compare and swap on the version that was read; the object written is the one that was
        read, with another holder and stamp. */
    method Update(slot: Slot, seen: Lease, holder: Identity, acquired: Time) returns (ok: bool)
      modifies this`store, this`trace
      ensures trace == old(trace) + [Updates(slot, seen, holder, acquired, ok)]
      ensures store == old(store)
              || (slot in old(store.leases) && old(store.leases)[slot].version == seen.version
                  && store == old(store).Write(slot, holder, acquired, seen.duration))
      ensures ok ==> slot in old(store.leases) && old(store.leases)[slot].version == seen.version
                     && store == old(store).Write(slot, holder, acquired, seen.duration)
      ensures reliable && slot in old(store.leases) && old(store.leases)[slot].version == seen.version ==> ok
    {
      var before := Fault();
      if before || slot !in store.leases || store.leases[slot].version != seen.version {
        ok := false;
      } else {
        store := store.Write(slot, holder, acquired, seen.duration);
        var after := Fault();
        ok := !after;
      }
      trace := trace + [Updates(slot, seen, holder, acquired, ok)];
    }

    /** Unconditional. */
    method Delete(slot: Slot) returns (ok: bool)
      modifies this`store, this`trace
      ensures trace == old(trace) + [Deletes(slot, ok)]
      ensures DeleteOutcome(slot, old(store), ok, store)
      ensures reliable && slot in old(store.leases) ==> ok
    {
      var before := Fault();
      if before || slot !in store.leases {
        ok := false;
      } else {
        store := store.Remove(slot);
        var after := Fault();
        ok := !after;
      }
      trace := trace + [Deletes(slot, ok)];
    }

    /** Whether a call to an endpoint, or its answer, gets lost. */
    method Drop(slot: Slot) returns (lost: bool)
      modifies this`trace
      ensures lost ==> !reliable
      ensures trace == old(trace) + (if lost then [Drops(slot)] else [])
    {
      lost := Fault();
      if lost {
        trace := trace + [Drops(slot)];
      }
    }
  }

  /** Nothing but the lease of identity id may have been written, stamped at time t or later,
      and nothing was removed. */
  predicate OnlyTaken(before: Store, after: Store, id: Identity, t: Time) {
    && (forall s | s in before.leases :: s in after.leases)
    && (forall s | s in after.leases ::
          (s in before.leases && after.leases[s] == before.leases[s])
          || (after.leases[s].holder == id && t <= after.leases[s].acquired))
  }

  /** Outside these slots nothing has changed. */
  predicate SameOutside(before: Store, after: Store, slots: seq<Slot>) {
    && (forall s | s in before.leases && s !in slots :: s in after.leases && after.leases[s] == before.leases[s])
    && (forall s | s in after.leases && s !in slots :: s in before.leases)
  }

  /** Nothing was added or changed, only removed. */
  predicate OnlyRemoved(before: Store, after: Store) {
    forall s | s in after.leases :: s in before.leases && after.leases[s] == before.leases[s]
  }

  /** Identity id holds every one of these slots, since time t at the earliest. */
  predicate HoldsAll(store: Store, slots: seq<Slot>, id: Identity, t: Time) {
    forall s | s in slots :: s in store.leases && store.leases[s].holder == id && t <= store.leases[s].acquired
  }

  predicate AllFree(store: Store, slots: seq<Slot>, t: Time) {
    forall s | s in slots :: store.Free(s, t)
  }

  /** Every one of these slots that was free at time t is in the hands of id, since then. */
  predicate TookFree(before: Store, after: Store, slots: seq<Slot>, id: Identity, t: Time) {
    forall s | s in slots && before.Free(s, t) ::
      s in after.leases && after.leases[s].holder == id && t <= after.leases[s].acquired
  }

  /** No lease that is live at time t was touched. */
  predicate LiveStay(before: Store, after: Store, t: Time) {
    forall s | s in before.leases && Live(before.leases[s], t) ::
      s in after.leases && after.leases[s] == before.leases[s]
  }

  /** What a LocalLock from time t to time t' can end with: nothing was written, or the slot was
      free and the caller's lease was written.  An effect may go unreported. */
  predicate LockOutcome(template: nat, id: Identity, slot: Slot, before: Store, t: Time,
                        ok: bool, after: Store, t': Time)
  {
    && t <= t'
    && ((!ok && after == before)
        || (&& slot in after.leases
            && var stamp := after.leases[slot].acquired;
            && t <= stamp <= t' && before.Free(slot, stamp)
            && after == before.Write(slot, id, stamp, before.Term(slot, template))))
  }

  /** What a Delete can end with: it failed without effect, or it emptied the slot.  An effect may
      go unreported. */
  predicate DeleteOutcome(slot: Slot, before: Store, ok: bool, after: Store) {
    (!ok && after == before) || (slot in before.leases && after == before.Remove(slot))
  }

  /** What a LocalUnlock can end with, depending on the answer to its Get: success when there is
      nothing, refusal when somebody else holds the lease, and otherwise what the Delete does. */
  predicate UnlockOutcome(id: Identity, slot: Slot, before: Store, got: GetAnswer, ok: bool, after: Store) {
    match got
    case Missing => slot !in before.leases && ok && after == before
    case Found(lease) =>
      && slot in before.leases && before.leases[slot] == lease
      && (if lease.holder != id then !ok && after == before else DeleteOutcome(slot, before, ok, after))
    case GetFailed => DeleteOutcome(slot, before, ok, after)
  }

  /** Every lease of somebody else is as it was. */
  predicate ForeignStay(before: Store, after: Store, id: Identity) {
    forall s | s in before.leases && before.leases[s].holder != id ::
      s in after.leases && after.leases[s] == before.leases[s]
  }

  /** No slot is in somebody else's hands. */
  predicate NoneForeign(store: Store, slots: seq<Slot>, id: Identity) {
    forall s | s in slots && s in store.leases :: store.leases[s].holder == id
  }

  /** The lock service of one cluster; remoteEndpoints are the clusters its endpoints lead to. */
  class Service {
    const api: ApiServers
    const local: Cluster
    const remoteEndpoints: seq<Cluster>
    const duration: nat

    constructor (api: ApiServers, local: Cluster, remoteEndpoints: seq<Cluster>, duration: nat)
      ensures this.api == api && this.local == local && this.remoteEndpoints == remoteEndpoints
      ensures this.duration == duration
    {
      this.api, this.local, this.remoteEndpoints, this.duration := api, local, remoteEndpoints, duration;
    }

    /** LocalLock on the cluster of the slot: Create, or Get, check the deadline and Update.
        A live lease is refused even to its own holder; a free one is always granted by
        reliable servers; nothing else is touched either way. */
    method LocalLock(id: Identity, slot: Slot) returns (ok: bool)
      modifies api
      ensures LockOutcome(duration, id, slot, old(api.store), old(api.now), ok, api.store, api.now)
      ensures old(api.trace) <= api.trace && LockShape(duration, id, slot, Since(old(api.trace), api.trace), ok)
      ensures api.reliable && !ok ==> api.store == old(api.store) && !old(api.store).Free(slot, old(api.now))
    {
      var stamp := api.ReadClock();
      var created := api.Create(slot, id, stamp, duration);
      match created
      case Created => return true;
      case CreateFailed => return false;
      case AlreadyExists =>
        ghost var asked := api.trace;
        ok := TakeOver(id, slot);
        assert Since(old(api.trace), api.trace)[2..] == Since(asked, api.trace);
    }

    /** The rest of it, when something is there already: only a lease that is past its deadline is
        taken over. */
    method TakeOver(id: Identity, slot: Slot) returns (ok: bool)
      requires slot in api.store.leases
      modifies api
      ensures LockOutcome(duration, id, slot, old(api.store), old(api.now), ok, api.store, api.now)
      ensures old(api.trace) <= api.trace && TakeoverShape(id, slot, Since(old(api.trace), api.trace), ok)
      ensures api.reliable && !ok ==> api.store == old(api.store) && !old(api.store).Free(slot, old(api.now))
    {
      var got := api.Get(slot);
      if !got.Found? {
        return false;
      }
      var checked := api.ReadClock();
      if Live(got.lease, checked) {
        return false;
      }
      var stamp := api.ReadClock();
      ok := api.Update(slot, got.lease, id, stamp);
    }

    /** LocalUnlock: Get, check the holder, Delete.  When the Get fails the check compares the
        caller with itself, so the Delete goes ahead whoever holds the lease. */
    method LocalUnlock(id: Identity, slot: Slot) returns (ok: bool)
      modifies api`store, api`trace
      ensures old(api.trace) <= api.trace
      ensures
        var made := Since(old(api.trace), api.trace);
        UnlockShape(id, slot, made, ok) && UnlockOutcome(id, slot, old(api.store), made[0].got, ok, api.store)
      ensures api.reliable ==>
                (ok <==> slot !in old(api.store.leases) || old(api.store.leases)[slot].holder == id)
      ensures api.reliable ==> (ok <==> slot !in api.store.leases)
    {
      var got := api.Get(slot);
      if got.Missing? {
        return true;
      }
      if got.Found? && got.lease.holder != id {
        return false;
      }
      ok := api.Delete(slot);
    }

    /** The call to one endpoint: the request or the answer may get lost. */
    method CallLock(id: Identity, slot: Slot) returns (acquired: bool)
      modifies api
      ensures LockOutcome(duration, id, slot, old(api.store), old(api.now), acquired, api.store, api.now)
      ensures old(api.trace) <= api.trace
      ensures CallShape(Locking(duration), id, slot, Since(old(api.trace), api.trace), acquired)
      ensures api.reliable && !acquired ==>
                api.store == old(api.store) && !old(api.store).Free(slot, old(api.now))
    {
      var lost := api.Drop(slot);
      if lost {
        return false;
      }
      acquired := LocalLock(id, slot);
      ghost var done := api.trace;
      var unanswered := api.Drop(slot);
      if unanswered {
        assert Since(old(api.trace), api.trace)[..|Since(old(api.trace), done)|] == Since(old(api.trace), done);
      }
      acquired := acquired && !unanswered;
    }

    /** The same for unlocking. */
    method CallUnlock(id: Identity, slot: Slot) returns (unlocked: bool)
      modifies api`store, api`trace
      ensures old(api.trace) <= api.trace
      ensures CallShape(Unlocking, id, slot, Since(old(api.trace), api.trace), unlocked)
      ensures api.store == old(api.store) || api.store == old(api.store).Remove(slot)
      ensures api.reliable ==>
                (unlocked <==> slot !in old(api.store.leases) || old(api.store.leases)[slot].holder == id)
      ensures api.reliable ==> (unlocked <==> slot !in api.store.leases)
    {
      var lost := api.Drop(slot);
      if lost {
        return false;
      }
      unlocked := LocalUnlock(id, slot);
      ghost var done := api.trace;
      var unanswered := api.Drop(slot);
      if unanswered {
        assert Since(old(api.trace), api.trace)[..|Since(old(api.trace), done)|] == Since(old(api.trace), done);
      }
      unlocked := unlocked && !unanswered;
    }

    function RemoteSlots(name: LeaseName): (slots: seq<Slot>)
      ensures |slots| == |remoteEndpoints|
      ensures forall i | 0 <= i < |slots| :: slots[i] == Slot(remoteEndpoints[i], name)
    {
      seq(|remoteEndpoints|, i requires 0 <= i < |remoteEndpoints| => Slot(remoteEndpoints[i], name))
    }

    function Slots(name: LeaseName): seq<Slot> {
      [Slot(local, name)] + RemoteSlots(name)
    }

    /** All endpoints are asked, whatever the others answer; one refusal fails the call, and
        the leases that were granted stay. */
    method RemoteLock(id: Identity, name: LeaseName) returns (ok: bool)
      modifies api
      ensures old(api.now) <= api.now
      ensures Advanced(old(api.store), api.store, RemoteSlots(name), id, old(api.now), api.now, duration)
      ensures ok ==> HoldsAll(api.store, RemoteSlots(name), id, old(api.now))
                     && AllFree(old(api.store), RemoteSlots(name), api.now)
      ensures ok && old(api.store).Lasts(duration) && api.now < old(api.now) + duration ==> Distinct(RemoteSlots(name))
      ensures api.reliable ==> TookFree(old(api.store), api.store, RemoteSlots(name), id, old(api.now))
      ensures (&& api.reliable && Distinct(RemoteSlots(name))
               && AllFree(old(api.store), RemoteSlots(name), old(api.now))) ==> ok
      ensures old(api.trace) <= api.trace
      ensures AllAsked(Locking(duration), id, RemoteSlots(name), Since(old(api.trace), api.trace), ok)
    {
      var slots := RemoteSlots(name);
      ghost var st, t, asked := api.store, api.now, api.trace;
      var errs: seq<Cluster> := [];
      for i := 0 to |slots|
        invariant t <= api.now
        invariant Advanced(st, api.store, slots[..i], id, t, api.now, duration)
        invariant errs == [] ==> HoldsAll(api.store, slots[..i], id, t) && AllFree(st, slots[..i], api.now)
        invariant errs == [] && st.Lasts(duration) && api.now < t + duration ==> Distinct(slots[..i])
        invariant api.reliable ==> TookFree(st, api.store, slots[..i], id, t)
        invariant api.reliable && Distinct(slots) && AllFree(st, slots, t) ==> errs == []
        invariant asked <= api.trace && AllAsked(Locking(duration), id, slots[..i], Since(asked, api.trace), errs == [])
      {
        ghost var mid, midNow, midAsked := api.store, api.now, api.trace;
        var acquired := CallLock(id, slots[i]);
        AskNext(Locking(duration), id, slots, i, asked, midAsked, api.trace, errs == [], acquired);
        AdvanceNext(st, mid, api.store, slots, i, id, t, midNow, api.now, duration, acquired);
        if acquired && errs == [] {
          HoldNext(st, mid, api.store, slots, i, id, t, midNow, api.now, duration);
        }
        if api.reliable {
          TookNext(st, mid, api.store, slots, i, id, t, midNow, api.now, duration, acquired);
        }
        if !acquired {
          errs := errs + [remoteEndpoints[i]];
        }
      }
      assert slots[..|slots|] == slots;
      ok := |errs| == 0;
    }

    /** Lock: the local lease first, then all remote ones.  A Lock that succeeds holds them all,
        and within the lease duration has reached pairwise distinct clusters; a Lock on free
        slots of distinct clusters, without errors, succeeds; what was granted to a Lock that
        fails is not given back; when the local lease is refused nothing else is asked for. */
    method Lock(id: Identity, name: LeaseName) returns (ok: bool)
      modifies api
      ensures old(api.now) <= api.now
      ensures Advanced(old(api.store), api.store, Slots(name), id, old(api.now), api.now, duration)
      ensures ok ==> HoldsAll(api.store, Slots(name), id, old(api.now))
                     && AllFree(old(api.store), Slots(name), api.now)
      ensures ok && old(api.store).Lasts(duration) && api.now < old(api.now) + duration ==> Distinct(Slots(name))
      ensures api.reliable && old(api.store).Free(Slot(local, name), old(api.now)) ==>
                TookFree(old(api.store), api.store, Slots(name), id, old(api.now))
      ensures !old(api.store).Free(Slot(local, name), api.now) ==> !ok && api.store == old(api.store)
      ensures (&& api.reliable && Distinct(Slots(name))
               && AllFree(old(api.store), Slots(name), old(api.now))) ==> ok
      ensures old(api.trace) <= api.trace
      ensures LocalFirst(Locking(duration), id, Slot(local, name), RemoteSlots(name),
                         Since(old(api.trace), api.trace), ok)
    {
      var here := Slot(local, name);
      ghost var st, t, asked := api.store, api.now, api.trace;
      var granted := LocalLock(id, here);
      assert here == Slots(name)[0];
      ghost var mid, midNow, midAsked := api.store, api.now, api.trace;
      if !granted {
        LocalRefused(Locking(duration), id, here, RemoteSlots(name), asked, midAsked);
        LockRefused(st, mid, here, RemoteSlots(name), id, t, midNow, duration);
        return false;
      }
      ok := true;
      if |remoteEndpoints| > 0 {
        ok := RemoteLock(id, name);
      } else {
        assert RemoteSlots(name) == [];
      }
      LocalThenAll(Locking(duration), id, here, RemoteSlots(name), asked, midAsked, api.trace, ok);
      LockEnds(st, mid, api.store, here, RemoteSlots(name), id, t, midNow, api.now, duration, ok, api.reliable);
    }

    /** Every endpoint is asked to give the lease back, whatever the others answer; those of
        somebody else stay. */
    method RemoteUnlock(id: Identity, name: LeaseName) returns (ok: bool)
      modifies api`store, api`trace
      ensures old(api.trace) <= api.trace
      ensures AllAsked(Unlocking, id, RemoteSlots(name), Since(old(api.trace), api.trace), ok)
      ensures SameOutside(old(api.store), api.store, RemoteSlots(name)) && OnlyRemoved(old(api.store), api.store)
      ensures api.reliable ==> ForeignStay(old(api.store), api.store, id)
      ensures api.reliable ==> Cleaned(old(api.store), api.store, RemoteSlots(name), id)
      ensures api.reliable ==> (ok <==> NoneForeign(old(api.store), RemoteSlots(name), id))
      ensures api.reliable && ok ==> forall s | s in RemoteSlots(name) :: s !in api.store.leases
    {
      var slots := RemoteSlots(name);
      ghost var st, asked := api.store, api.trace;
      var errs: seq<Cluster> := [];
      for i := 0 to |slots|
        invariant asked <= api.trace && AllAsked(Unlocking, id, slots[..i], Since(asked, api.trace), errs == [])
        invariant SameOutside(st, api.store, slots[..i]) && OnlyRemoved(st, api.store)
        invariant api.reliable ==> Cleaned(st, api.store, slots[..i], id) && ForeignStay(st, api.store, id)
        invariant api.reliable ==> (errs == [] <==> NoneForeign(st, slots[..i], id))
      {
        ghost var mid, midAsked := api.store, api.trace;
        var unlocked := CallUnlock(id, slots[i]);
        AskNext(Unlocking, id, slots, i, asked, midAsked, api.trace, errs == [], unlocked);
        GiveBackNext(st, mid, api.store, slots, i, id, api.reliable, unlocked);
        if !unlocked {
          errs := errs + [remoteEndpoints[i]];
        }
      }
      assert slots[..|slots|] == slots;
      ok := |errs| == 0;
    }

    /** Unlock: the local lease first; the remote ones only when that is gone.  With reliable
        servers the leases of others stay, and the caller's own are gone unless the local one
        belongs to somebody else. */
    method Unlock(id: Identity, name: LeaseName) returns (ok: bool)
      modifies api`store, api`trace
      ensures old(api.trace) <= api.trace
      ensures LocalFirst(Unlocking, id, Slot(local, name), RemoteSlots(name), Since(old(api.trace), api.trace), ok)
      ensures SameOutside(old(api.store), api.store, Slots(name)) && OnlyRemoved(old(api.store), api.store)
      ensures Slot(local, name) in api.store.leases ==> !ok && api.store == old(api.store)
      ensures api.reliable ==> ForeignStay(old(api.store), api.store, id)
      ensures api.reliable && NoneForeign(old(api.store), [Slot(local, name)], id) ==>
                Cleaned(old(api.store), api.store, Slots(name), id)
      ensures api.reliable ==> (ok <==> NoneForeign(old(api.store), Slots(name), id))
      ensures api.reliable && ok ==> forall s | s in Slots(name) :: s !in api.store.leases
    {
      var here := Slot(local, name);
      ghost var st, asked := api.store, api.trace;
      ok := LocalUnlock(id, here);
      assert here == Slots(name)[0];
      ghost var mid, midAsked := api.store, api.trace;
      if !ok {
        LocalRefused(Unlocking, id, here, RemoteSlots(name), asked, midAsked);
        LocalThenRemoteBack(st, mid, mid, here, RemoteSlots(name), id);
        return;
      }
      if |remoteEndpoints| > 0 {
        ok := RemoteUnlock(id, name);
      } else {
        assert RemoteSlots(name) == [];
      }
      LocalThenAll(Unlocking, id, here, RemoteSlots(name), asked, midAsked, api.trace, ok);
      LocalThenRemoteBack(st, mid, api.store, here, RemoteSlots(name), id);
      if api.reliable {
        AllGivenBack(st, mid, api.store, here, RemoteSlots(name), id);
      }
    }
  }

  /** What a Lock leaves alone, however it ends: everything outside its slots, every lease that is
      still live, and every lease of others that it does not replace by its own. */
  predicate Advanced(before: Store, after: Store, slots: seq<Slot>, id: Identity, t: Time, now: Time, duration: nat) {
    && SameOutside(before, after, slots) && OnlyTaken(before, after, id, t) && LiveStay(before, after, now)
    && (before.Lasts(duration) ==> after.Lasts(duration))
  }

  lemma AdvanceNext(st: Store, mid: Store, end: Store, slots: seq<Slot>, i: nat, id: Identity,
                    t: Time, midNow: Time, now: Time, duration: nat, acquired: bool)
    requires i < |slots| && t <= midNow && Advanced(st, mid, slots[..i], id, t, midNow, duration)
    requires LockOutcome(duration, id, slots[i], mid, midNow, acquired, end, now)
    ensures Advanced(st, end, slots[..i + 1], id, t, now, duration)
  {
    assert slots[..i + 1] == slots[..i] + [slots[i]];
  }

  lemma HoldNext(st: Store, mid: Store, end: Store, slots: seq<Slot>, i: nat, id: Identity,
                 t: Time, midNow: Time, now: Time, duration: nat)
    requires i < |slots| && t <= midNow && Advanced(st, mid, slots[..i], id, t, midNow, duration)
    requires LockOutcome(duration, id, slots[i], mid, midNow, true, end, now)
    requires HoldsAll(mid, slots[..i], id, t) && AllFree(st, slots[..i], midNow)
    ensures HoldsAll(end, slots[..i + 1], id, t) && AllFree(st, slots[..i + 1], now)
    ensures st.Lasts(duration) && now < t + duration && Distinct(slots[..i]) ==> Distinct(slots[..i + 1])
  {
    var done, slot := slots[..i], slots[i];
    assert slots[..i + 1] == done + [slot];
    if st.Lasts(duration) && now < t + duration {
      assert slot !in done;
    }
  }

  lemma TookNext(st: Store, mid: Store, end: Store, slots: seq<Slot>, i: nat, id: Identity,
                 t: Time, midNow: Time, now: Time, duration: nat, acquired: bool)
    requires i < |slots| && t <= midNow && Advanced(st, mid, slots[..i], id, t, midNow, duration)
    requires LockOutcome(duration, id, slots[i], mid, midNow, acquired, end, now)
    requires !acquired ==> end == mid && !mid.Free(slots[i], midNow)
    requires TookFree(st, mid, slots[..i], id, t)
    ensures TookFree(st, end, slots[..i + 1], id, t)
    ensures Distinct(slots) && AllFree(st, slots, t) ==> acquired
  {
    var done, slot := slots[..i], slots[i];
    assert slots[..i + 1] == done + [slot];
    if Distinct(slots) && AllFree(st, slots, t) {
      assert slot !in done;
      assert slot in slots;
    }
  }

  lemma LocalThenRemote(st: Store, mid: Store, end: Store, here: Slot, remote: seq<Slot>, id: Identity,
                        t: Time, midNow: Time, now: Time, duration: nat, granted: bool)
    requires LockOutcome(duration, id, here, st, t, granted, mid, midNow) && midNow <= now
    requires Advanced(mid, end, remote, id, midNow, now, duration)
    ensures Advanced(st, end, [here] + remote, id, t, now, duration)
  {
    assert forall s :: s in [here] + remote <==> s == here || s in remote;
  }

  lemma LocalThenRemoteHolds(st: Store, mid: Store, end: Store, here: Slot, remote: seq<Slot>, id: Identity,
                             t: Time, midNow: Time, now: Time, duration: nat)
    requires LockOutcome(duration, id, here, st, t, true, mid, midNow) && midNow <= now
    requires OnlyTaken(mid, end, id, midNow) && HoldsAll(end, remote, id, midNow) && AllFree(mid, remote, now)
    ensures HoldsAll(end, [here] + remote, id, t) && AllFree(st, [here] + remote, now)
  {
    assert forall s :: s in [here] + remote <==> s == here || s in remote;
  }

  lemma LockRefused(st: Store, mid: Store, here: Slot, remote: seq<Slot>, id: Identity, t: Time, now: Time, duration: nat)
    requires LockOutcome(duration, id, here, st, t, false, mid, now)
    ensures Advanced(st, mid, [here] + remote, id, t, now, duration)
    ensures here == ([here] + remote)[0]
    ensures !st.Free(here, now) ==> mid == st
  {
    LocalThenRemote(st, mid, mid, here, remote, id, t, now, now, duration, false);
  }

  /** What a Lock comes to when its local lease was granted and the endpoints have answered. */
  lemma LockEnds(st: Store, mid: Store, end: Store, here: Slot, remote: seq<Slot>, id: Identity,
                 t: Time, midNow: Time, now: Time, duration: nat, ok: bool, reliable: bool)
    requires LockOutcome(duration, id, here, st, t, true, mid, midNow) && midNow <= now
    requires Advanced(mid, end, remote, id, midNow, now, duration)
    requires ok ==> HoldsAll(end, remote, id, midNow) && AllFree(mid, remote, now)
    requires ok && mid.Lasts(duration) && now < midNow + duration ==> Distinct(remote)
    requires reliable ==> TookFree(mid, end, remote, id, midNow)
    requires reliable && Distinct(remote) && AllFree(mid, remote, midNow) ==> ok
    ensures Advanced(st, end, [here] + remote, id, t, now, duration)
    ensures ok ==> HoldsAll(end, [here] + remote, id, t) && AllFree(st, [here] + remote, now)
    ensures ok && st.Lasts(duration) && now < t + duration ==> Distinct([here] + remote)
    ensures reliable ==> TookFree(st, end, [here] + remote, id, t)
    ensures st.Free(here, now)
    ensures reliable && Distinct([here] + remote) && AllFree(st, [here] + remote, t) ==> ok
  {
    LocalThenRemote(st, mid, end, here, remote, id, t, midNow, now, duration, true);
    if ok {
      LocalThenRemoteHolds(st, mid, end, here, remote, id, t, midNow, now, duration);
    }
    if reliable {
      LocalThenRemoteTook(st, mid, end, here, remote, id, t, midNow, duration);
    }
    LocalThenRemoteDistinct(st, mid, here, remote, id, t, midNow, now, duration, true);
  }

  /** A slot that was free stays free for everybody when others are taken. */
  lemma StillFree(st: Store, mid: Store, here: Slot, id: Identity, t: Time, midNow: Time, duration: nat,
                  granted: bool, s: Slot)
    requires LockOutcome(duration, id, here, st, t, granted, mid, midNow)
    requires s != here && st.Free(s, t)
    ensures mid.Free(s, midNow)
  {
  }

  lemma LocalThenRemoteTook(st: Store, mid: Store, end: Store, here: Slot, remote: seq<Slot>, id: Identity,
                            t: Time, midNow: Time, duration: nat)
    requires LockOutcome(duration, id, here, st, t, true, mid, midNow) && OnlyTaken(mid, end, id, midNow)
    requires TookFree(mid, end, remote, id, midNow)
    ensures TookFree(st, end, [here] + remote, id, t)
  {
    forall s | s in [here] + remote && st.Free(s, t)
      ensures s in end.leases && end.leases[s].holder == id && t <= end.leases[s].acquired
    {
      if s != here {
        StillFree(st, mid, here, id, t, midNow, duration, true, s);
      }
    }
  }

  lemma LocalThenRemoteDistinct(st: Store, mid: Store, here: Slot, remote: seq<Slot>, id: Identity,
                                t: Time, midNow: Time, now: Time, duration: nat, granted: bool)
    requires LockOutcome(duration, id, here, st, t, granted, mid, midNow) && midNow <= now
    ensures (&& granted && st.Lasts(duration) && now < t + duration
             && Distinct(remote) && AllFree(mid, remote, now)) ==> Distinct([here] + remote)
    ensures Distinct([here] + remote) && AllFree(st, [here] + remote, t) ==>
              st.Free(here, t) && Distinct(remote) && AllFree(mid, remote, midNow)
  {
    var all := [here] + remote;
    assert forall i | 0 <= i < |remote| :: all[i + 1] == remote[i];
    if granted && st.Lasts(duration) && now < t + duration && AllFree(mid, remote, now) {
      assert here !in remote;
    }
    if Distinct(all) && AllFree(st, all, t) {
      forall s | s in remote
        ensures s != here && mid.Free(s, midNow)
      {
        assert all[0] == here && s in all;
        StillFree(st, mid, here, id, t, midNow, duration, granted, s);
      }
    }
  }

  /** After reliable unlocking, the slots of id are empty and the others are as they were. */
  predicate Cleaned(before: Store, after: Store, slots: seq<Slot>, id: Identity) {
    forall s | s in slots :: s in after.leases ==> s in before.leases && before.leases[s].holder != id
  }

  lemma GiveBackNext(st: Store, mid: Store, end: Store, slots: seq<Slot>, i: nat, id: Identity,
                     reliable: bool, unlocked: bool)
    requires i < |slots|
    requires SameOutside(st, mid, slots[..i]) && OnlyRemoved(st, mid)
    requires end == mid || end == mid.Remove(slots[i])
    requires reliable ==> Cleaned(st, mid, slots[..i], id)
    requires reliable ==> (unlocked <==> slots[i] !in mid.leases || mid.leases[slots[i]].holder == id)
    requires reliable ==> (unlocked <==> slots[i] !in end.leases)
    ensures SameOutside(st, end, slots[..i + 1]) && OnlyRemoved(st, end)
    ensures reliable ==> Cleaned(st, end, slots[..i + 1], id)
    ensures reliable ==>
              (NoneForeign(st, slots[..i + 1], id) <==> NoneForeign(st, slots[..i], id) && unlocked)
  {
    var done, slot := slots[..i], slots[i];
    assert slots[..i + 1] == done + [slot];
    assert forall s :: s in slots[..i + 1] <==> s in done || s == slot;
  }

  lemma AllGivenBack(st: Store, mid: Store, end: Store, here: Slot, remote: seq<Slot>, id: Identity)
    requires (mid == st || mid == st.Remove(here)) && here !in mid.leases
    requires here in st.leases ==> st.leases[here].holder == id
    requires OnlyRemoved(mid, end) && ForeignStay(mid, end, id) && Cleaned(mid, end, remote, id)
    ensures ForeignStay(st, end, id) && Cleaned(st, end, [here] + remote, id)
  {
    assert forall s :: s in [here] + remote <==> s == here || s in remote;
  }

  lemma LocalThenRemoteBack(st: Store, mid: Store, end: Store, here: Slot, remote: seq<Slot>, id: Identity)
    requires mid == st || mid == st.Remove(here)
    requires SameOutside(mid, end, remote) && OnlyRemoved(mid, end)
    ensures SameOutside(st, end, [here] + remote) && OnlyRemoved(st, end)
    ensures here !in mid.leases ==> here !in end.leases
    ensures here !in mid.leases && NoneForeign(mid, remote, id) ==>
              NoneForeign(st, [here] + remote, id) || (here in st.leases && st.leases[here].holder != id)
    ensures NoneForeign(st, [here] + remote, id) ==>
              NoneForeign(mid, remote, id) && (here in st.leases ==> st.leases[here].holder == id)
    ensures forall s :: s in [here] + remote <==> s == here || s in remote
  {
    assert forall s :: s in [here] + remote <==> s == here || s in remote;
  }
}
