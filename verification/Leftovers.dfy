/** What leftover leases may look like: the deadline check uses the duration stored in the
    lease and a takeover keeps it, so a lease that was once written with a shorter duration
    stays short.  Mutual exclusion holds exactly when there is no such lease. */
module Leftovers {
  import opened Leases
  import opened LockProtocol
  import opened Runs

  /** No timely run from s ever protects two requests on one slot. */
  ghost predicate Excludes(duration: nat, s: State) {
    forall steps: seq<Step>, a: Identity, i: nat, b: Identity, j: nat ::
      (&& Valid(duration, s, steps) && AllTimely(duration, s, steps)
       && Clash(duration, Final(duration, s, steps), a, i, b, j)) ==> a == b && i == j
  }

  /** Both are protected, on the same slot. */
  predicate Clash(duration: nat, f: State, a: Identity, i: nat, b: Identity, j: nat) {
    Protected(duration, f, a, i) && Protected(duration, f, b, j) && f.requests[a].At(i) == f.requests[b].At(j)
  }

  lemma LongLeasesExclude(duration: nat, s: State)
    requires Initial(s) && s.store.Lasts(duration)
    ensures Excludes(duration, s)
  {
    forall steps: seq<Step>, a: Identity, i: nat, b: Identity, j: nat |
      Valid(duration, s, steps) && AllTimely(duration, s, steps)
      && Clash(duration, Final(duration, s, steps), a, i, b, j)
      ensures a == b && i == j
    {
      MutualExclusion(duration, s, steps, a, i, b, j);
    }
  }

  /** After the leftover lease has expired, request 1 takes it over, request 2 takes it over
      when the short duration is up, and both are still in their protected windows. */
  lemma ShortLeaseIsShared(duration: nat, s: State, slot: Slot) returns (f: State)
    requires Initial(s) && slot in s.store.leases && s.store.leases[slot].duration < duration
    ensures Reaches(duration, TIMELY, s, f) && Clash(duration, f, 1, 0, 2, 0)
  {
    var short := s.store.leases[slot].duration;
    var left := s.store.leases[slot].acquired + short - s.now;
    var wait := if left > 0 then left else 0;
    ReachesSelf(duration, TIMELY, s);
    Waits(duration, TIMELY, s, s, wait);
    var s1 := s.(now := s.now + wait);
    TakesFreeSlot(duration, TIMELY, s, s1, 1, slot);
    var s2 := Holding(duration, s1, 1, slot);
    Waits(duration, TIMELY, s, s2, short);
    var s3 := s2.(now := s2.now + short);
    TakesFreeSlot(duration, TIMELY, s, s3, 2, slot);
    f := Holding(duration, s3, 2, slot);
  }

  /** A lease is as old as the clock reading before the call that writes it: on any free slot, and
      however slow that call is, the LocalLock succeeds with a lease that has used up that much
      of its term.  A slow one is granted a lease that is past its deadline already. */
  lemma SlowCallsShortenLeases(duration: nat, s: State, slot: Slot, delay: nat) returns (f: State)
    requires Initial(s) && s.store.Free(slot, s.now)
    ensures Reaches(duration, TIMELY, s, f) && f.now == s.now + delay && HasTask(f, 1, 0)
    ensures f.requests[1].AllAcquired() && f.requests[1].At(0) == slot
    ensures slot in f.store.leases && f.store.leases[slot] == f.requests[1].locks[0].lease
    ensures Live(f.store.leases[slot], f.now) <==> delay < s.store.Term(slot, duration)
  {
    ReachesSelf(duration, TIMELY, s);
    SoloBegins(duration, TIMELY, s, s, 1, slot);
    var b := Solo(s, s.store, 1, slot, Idle, Pending);
    WritesLate(duration, TIMELY, s, b, delay, 1, 0);
    f := Moved(b, s.now + delay, Taken(duration, s.store, 1, slot, s.now), 1, 0,
               Acquired(LeaseOf(duration, s.store, 1, slot, s.now)));
  }

  /** Mutual exclusion holds from a state if and only if no lease left behind in it runs
      shorter than new ones do. */
  lemma ExcludesExactlyWhenLasting(duration: nat, s: State)
    requires Initial(s)
    ensures Excludes(duration, s) <==> s.store.Lasts(duration)
  {
    if s.store.Lasts(duration) {
      LongLeasesExclude(duration, s);
    } else {
      var slot :| slot in s.store.leases && s.store.leases[slot].duration < duration;
      var f := ShortLeaseIsShared(duration, s, slot);
      var steps :| Valid(duration, s, steps) && Final(duration, s, steps) == f
                   && Allowed(duration, TIMELY, s, steps);
      assert Clash(duration, Final(duration, s, steps), 1, 0, 2, 0);
    }
  }
}
