/** The calls of the lock service are runs of the step system: whatever a LocalLock or LocalUnlock
    does to the stores, the steps of one task do as well, timely ones unless a Delete comes
    after the deadline of the caller's own lease.  So what holds of every timely run of the
    protocol holds of these calls as long as unlocking is in time. */
module Refinement {
  import opened Leases
  import opened LockProtocol
  import opened Runs
  import ApiTrace
  import LockService

  /** Every outcome of a LocalLock is reached by a timely run of its own task: the same stores,
      the same time, acquired exactly when the call succeeds, nobody else moved. */
  lemma LocalLockIsRun(duration: nat, s: State, id: Identity, i: nat, ok: bool, after: Store, later: Time)
    returns (task: LockTask)
    requires Enabled(s, BuildTemplate(id, i))
    requires LockService.LockOutcome(duration, id, s.requests[id].At(i), s.store, s.now, ok, after, later)
    ensures task.Acquired? <==> ok
    ensures Reaches(duration, TIMELY, s, Moved(s, later, after, id, i, task))
  {
    ReachesSelf(duration, TIMELY, s);
    task := LocalLockFollows(duration, s, s, id, i, ok, after, later);
  }

  /** The same after a run that has come as far as state b. */
  lemma LocalLockFollows(duration: nat, s: State, b: State, id: Identity, i: nat, ok: bool, after: Store, later: Time)
    returns (task: LockTask)
    requires Reaches(duration, TIMELY, s, b) && Enabled(b, BuildTemplate(id, i))
    requires LockService.LockOutcome(duration, id, b.requests[id].At(i), b.store, b.now, ok, after, later)
    ensures (task.Acquired? <==> ok) && !task.Idle?
    ensures Reaches(duration, TIMELY, s, Moved(b, later, after, id, i, task))
  {
    if !ok && after == b.store {
      task := Refused;
      StandsStill(b, id, i);
      MoveOn(duration, TIMELY, s, b, b.now, b.store, id, i, b.requests[id].locks[i], Abort(id, i), b.store, Refused);
      Lingers(duration, TIMELY, s, b, b.now, b.store, id, i, Refused, later);
    } else {
      var slot := b.requests[id].At(i);
      var stamp := after.leases[slot].acquired;
      Writes(duration, TIMELY, s, b, stamp, id, i, !ok);
      task := if ok then Acquired(LeaseOf(duration, b.store, id, slot, stamp)) else Refused;
      Lingers(duration, TIMELY, s, b, stamp, after, id, i, task, later);
    }
  }

  // ----- a whole Lock

  /** How one of the calls of a Lock ended. */
  datatype CallEnd = CallEnd(ok: bool, store: Store, now: Time)

  /** The calls of a Lock one after the other, the local one first; if that is refused, it is the
      only one. */
  predicate LockCalls(duration: nat, id: Identity, r: Request, start: CallEnd, ends: seq<CallEnd>) {
    && r.WellShaped() && 0 < |ends| <= |r.clusters|
    && (|ends| == |r.clusters| || !ends[0].ok) && (!ends[0].ok ==> |ends| == 1)
    && forall i | 0 <= i < |ends| :: CallFollows(duration, id, r, start, ends, i)
  }

  predicate CallFollows(duration: nat, id: Identity, r: Request, start: CallEnd, ends: seq<CallEnd>, i: nat)
    requires i < |ends| <= |r.clusters|
  {
    var before := if i == 0 then start else ends[i - 1];
    LockService.LockOutcome(duration, id, r.At(i), before.store, before.now, ends[i].ok, ends[i].store, ends[i].now)
  }

  /** In state c, n of these calls have been made for request id of state s. */
  ghost predicate Called(s: State, c: State, id: Identity, ends: seq<CallEnd>, n: nat) {
    && id in s.requests && s.requests[id].WellShaped() && n <= |ends| <= |s.requests[id].clusters|
    && c.requests.Keys == s.requests.Keys && (forall q | q in s.requests && q != id :: c.requests[q] == s.requests[q])
    && |c.requests[id].locks| == |s.requests[id].locks|
    && c.requests[id] == s.requests[id].(locks := c.requests[id].locks)
    && (forall i | 0 <= i < |s.requests[id].clusters| ::
          if i < n then (c.requests[id].locks[i].Acquired? <==> ends[i].ok) else c.requests[id].locks[i].Idle?)
    && (n > 0 ==> c.store == ends[n - 1].store && c.now == ends[n - 1].now)
    && (n == 0 ==> c == s)
  }

  lemma CallsNext(duration: nat, s: State, c: State, id: Identity, ends: seq<CallEnd>, n: nat) returns (c': State)
    requires Reaches(duration, TIMELY, s, c) && Called(s, c, id, ends, n) && n < |ends|
    requires LockCalls(duration, id, s.requests[id], CallEnd(true, s.store, s.now), ends)
    ensures Reaches(duration, TIMELY, s, c') && Called(s, c', id, ends, n + 1)
  {
    assert CallFollows(duration, id, s.requests[id], CallEnd(true, s.store, s.now), ends, n);
    assert n > 0 ==> c.requests[id].locks[0].Acquired?;
    assert c.requests[id].At(n) == s.requests[id].At(n) && Enabled(c, BuildTemplate(id, n));
    var task := LocalLockFollows(duration, s, c, id, n, ends[n].ok, ends[n].store, ends[n].now);
    c' := Moved(c, ends[n].now, ends[n].store, id, n, task);
  }

  /** Every outcome of a Lock is reached by a timely run of its request: the stores and the time
      after its last call, granted exactly when every cluster said yes, failed otherwise, with
      what was granted still there. */
  lemma LockIsRun(duration: nat, s: State, id: Identity, ends: seq<CallEnd>) returns (f: State)
    requires id in s.requests && s.requests[id].WellShaped() && s.requests[id].status.Pending?
    requires forall i | 0 <= i < |s.requests[id].clusters| :: s.requests[id].locks[i].Idle?
    requires LockCalls(duration, id, s.requests[id], CallEnd(true, s.store, s.now), ends)
    ensures Reaches(duration, TIMELY, s, f) && id in f.requests
    ensures f.store == ends[|ends| - 1].store && f.now == ends[|ends| - 1].now
    ensures f.requests[id].status ==
            if |ends| == |s.requests[id].clusters| && (forall e | e in ends :: e.ok) then Granted else Failed
    ensures forall q | q in s.requests && q != id :: q in f.requests && f.requests[q] == s.requests[q]
  {
    var c := s;
    ReachesSelf(duration, TIMELY, s);
    for n := 0 to |ends|
      invariant Reaches(duration, TIMELY, s, c) && Called(s, c, id, ends, n)
    {
      c := CallsNext(duration, s, c, id, ends, n);
    }
    if |ends| == |s.requests[id].clusters| && forall e | e in ends :: e.ok {
      assert forall i | 0 <= i < |ends| :: ends[i] in ends;
      assert c.requests[id].AllAcquired();
      ReachesNext(duration, TIMELY, s, c, Grant(id));
      f := WithStatus(c, id, Granted);
    } else {
      ReachesNext(duration, TIMELY, s, c, Fail(id));
      f := WithStatus(c, id, Failed);
    }
  }

  /** Where a LocalUnlock leaves its task. */
  function UnlockEnd(id: Identity, got: ApiTrace.GetAnswer, before: Store, after: Store): UnlockTask {
    match got
    case Missing => Absent
    case Found(lease) => if lease.holder != id then Foreign else if after == before then Matched else Deleted
    case GetFailed => if after == before then Matched else Deleted
  }

  /** The caller's own lease on the slot has not reached its deadline. */
  predicate OwnLive(s: State, id: Identity, i: nat)
    requires HasTask(s, id, i)
  {
    s.requests[id].locks[i].Acquired? && Live(s.requests[id].locks[i].lease, s.now)
  }

  /** Every outcome of a LocalUnlock is reached by a run of its own task, a timely one while its
      own lease is live.  A call that is refused because somebody else holds the lease has no
      Delete before it; a success leaves the task where the remote half of Unlock may follow;
      only a Delete that failed without effect leaves it pending. */
  lemma LocalUnlockIsRun(duration: nat, s: State, id: Identity, i: nat, got: ApiTrace.GetAnswer, ok: bool, after: Store)
    requires MayUnlock(s, id, i)
    requires LockService.UnlockOutcome(id, s.requests[id].At(i), s.store, got, ok, after)
    ensures
      var task := UnlockEnd(id, got, s.store, after);
      && Reaches(duration, Rules(OwnLive(s, id, i), false), s, WithUnlock(s, id, i, task).(store := after))
      && (ok ==> task.Deleted? || task.Absent?)
      && (task.Matched? ==> !ok && after == s.store)
  {
    var rules := Rules(OwnLive(s, id, i), false);
    ReachesSelf(duration, rules, s);
    if got.GetFailed? {
      ReachesNext(duration, rules, s, s, UnlockGetError(id, i));
    } else {
      ReachesNext(duration, rules, s, s, UnlockGet(id, i));
    }
    if UnlockEnd(id, got, s.store, after).Deleted? {
      DeleteFollows(duration, rules, s, id, i);
    }
  }

  lemma DeleteFollows(duration: nat, rules: Rules, s: State, id: Identity, i: nat)
    requires HasTask(s, id, i) && Reaches(duration, rules, s, WithUnlock(s, id, i, Matched))
    requires !rules.working && (rules.timely ==> OwnLive(s, id, i))
    ensures Reaches(duration, rules, s, WithUnlock(s, id, i, Deleted).(store := s.store.Remove(s.requests[id].At(i))))
  {
    var r, s1 := s.requests[id], WithUnlock(s, id, i, Matched);
    ReachesNext(duration, rules, s, s1, Delete(id, i));
    assert r.unlocks[i := Matched][i := Deleted] == r.unlocks[i := Deleted];
    assert WithUnlock(s1, id, i, Deleted).requests == WithUnlock(s, id, i, Deleted).requests;
  }
}
