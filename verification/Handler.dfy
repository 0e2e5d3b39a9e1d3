/** The admission handler: gates, lock, budget, probe, and what it does with its leases. */
module Handler {
  import opened Leases
  import opened Budget
  import opened ApiTrace
  import opened LockService

  datatype Condition = Condition(isDisruptionTarget: bool, isTrue: bool)

  /** The pod as the admission request has it. */
  datatype RequestedPod = RequestedPod(terminating: bool, conditions: seq<Condition>, nodeLost: bool)

  datatype Probe = Probe(enabled: Option<bool>)

  /** lease: the name of the lease for the budget's namespace and selector. */
  datatype Xpdb = Xpdb(lease: LeaseName, suspend: Option<bool>, probe: Option<Probe>)

  /** What the surroundings answer during one request; identity is fresh for every request. */
  datatype Env = Env(
    pod: Result<RequestedPod>,
    preactivities: Result<bool>,
    xpdbs: Result<seq<Xpdb>>,
    identity: Identity,
    budget: Result<bool>,
    probe: Result<bool>)

  datatype Response = Response(allowed: bool, code: Option<int>)

  /** The calls to the lock service, in order. */
  datatype Call = LockCall(id: Identity, lease: LeaseName, granted: bool) | UnlockCall(id: Identity, lease: LeaseName)

  const TOO_MANY_REQUESTS: int := 429
  const INTERNAL_ERROR: int := 500

  /** The first condition saying that the pod is going because of a disruption. */
  method GetDisruptionTargetCondition(pod: RequestedPod) returns (found: Option<nat>)
    ensures found.Some? <==> IsDisruptionTarget(pod)
    ensures found.Some? ==>
              && found.value < |pod.conditions| && Marks(pod.conditions[found.value])
              && forall j | 0 <= j < found.value :: !Marks(pod.conditions[j])
  {
    for i := 0 to |pod.conditions|
      invariant forall j | 0 <= j < i :: !Marks(pod.conditions[j])
    {
      if pod.conditions[i].isDisruptionTarget && pod.conditions[i].isTrue {
        assert pod.conditions[i] in pod.conditions;
        return Some(i);
      }
    }
    return None;
  }

  predicate Marks(c: Condition) {
    c.isDisruptionTarget && c.isTrue
  }

  predicate IsDisruptionTarget(pod: RequestedPod) {
    exists c | c in pod.conditions :: Marks(c)
  }

  // ----- what the gates say, independently of their order

  /** The request is none of the handler's business. */
  predicate Ignored(env: Env) {
    env.pod.Err? || env.pod.value.terminating || IsDisruptionTarget(env.pod.value) || env.pod.value.nodeLost
  }

  /** Nothing is pending, and the budgets of the pod could be read. */
  predicate Matched(env: Env) {
    !Ignored(env) && env.preactivities == Ok(true) && env.xpdbs.Ok?
  }

  predicate Suspended(xpdb: Xpdb) {
    xpdb.suspend == Some(true)
  }

  /** Exactly one budget matches the pod, and it is not suspended. */
  predicate Governed(env: Env) {
    Matched(env) && |env.xpdbs.value| == 1 && !Suspended(env.xpdbs.value[0])
  }

  /** Allowed without looking at any lease. */
  predicate Unguarded(env: Env) {
    Ignored(env)
    || (Matched(env) && (env.xpdbs.value == [] || (|env.xpdbs.value| == 1 && Suspended(env.xpdbs.value[0]))))
  }

  predicate Probed(xpdb: Xpdb) {
    xpdb.probe.Some? && xpdb.probe.value.enabled != Some(false)
  }

  /** Budget and probe agree to the disruption. */
  predicate Cleared(env: Env)
    requires Governed(env)
  {
    env.budget == Ok(true) && (Probed(env.xpdbs.value[0]) ==> env.probe == Ok(true))
  }

  /** A refusal that the caller should retry, rather than an error. */
  predicate Refused(env: Env)
    requires Governed(env)
  {
    env.budget == Ok(false)
    || (env.budget == Ok(true) && Probed(env.xpdbs.value[0]) && env.probe == Ok(false))
  }

  /** Every lease of somebody else that is live now is as it was. */
  predicate OthersStay(before: Store, after: Store, id: Identity, now: Time) {
    forall s | s in before.leases && before.leases[s].holder != id && Live(before.leases[s], now) ::
      s in after.leases && after.leases[s] == before.leases[s]
  }

  class Webhook {
    const locks: Service
    const dryRun: bool

    constructor (locks: Service, dryRun: bool)
      ensures this.locks == locks && this.dryRun == dryRun
    {
      this.locks, this.dryRun := locks, dryRun;
    }

    /** Dry-run drops the error code and nothing else. */
    function Respond(allowed: bool, code: Option<int>): Response {
      if dryRun then Response(allowed, None)
      else if code.Some? then Response(false, code)
      else Response(allowed, None)
    }

    /** These are the calls of one whole Unlock, whatever came of it. */
    ghost predicate UnlockMade(id: Identity, lease: LeaseName, made: seq<Event>) {
      || LocalFirst(Unlocking, id, Slot(locks.local, lease), locks.RemoteSlots(lease), made, true)
      || LocalFirst(Unlocking, id, Slot(locks.local, lease), locks.RemoteSlots(lease), made, false)
    }

    /** These are the calls of one whole Lock with this result, and of one Unlock if it was
        followed by one; nothing else was asked of the API servers. */
    ghost predicate Served(id: Identity, lease: LeaseName, granted: bool, unlocked: bool, made: seq<Event>) {
      exists split: nat ::
        && split <= |made|
        && LocalFirst(Locking(locks.duration), id, Slot(locks.local, lease), locks.RemoteSlots(lease),
                      made[..split], granted)
        && (if unlocked then UnlockMade(id, lease, made[split..]) else split == |made|)
    }

    lemma IsServed(id: Identity, lease: LeaseName, granted: bool, unlocked: bool, a: seq<Event>, b: seq<Event>,
                   c: seq<Event>)
      requires a <= b <= c
      requires LocalFirst(Locking(locks.duration), id, Slot(locks.local, lease), locks.RemoteSlots(lease),
                          Since(a, b), granted)
      requires if unlocked then UnlockMade(id, lease, Since(b, c)) else c == b
      ensures a <= c && Served(id, lease, granted, unlocked, Since(a, c))
    {
      SinceBoth(a, b, c);
      var made, split := Since(a, c), |Since(a, b)|;
      assert made[..split] == Since(a, b) && made[split..] == Since(b, c);
    }

    /** Deny, giving the leases of the budget back if there is one. */
    method Deny(xpdb: Option<Xpdb>, id: Identity, code: Option<int>, calls: seq<Call>)
      returns (response: Response, calls': seq<Call>)
      modifies locks.api`store, locks.api`trace
      ensures response == Respond(false, code)
      ensures xpdb.None? ==>
                calls' == calls && locks.api.store == old(locks.api.store) && locks.api.trace == old(locks.api.trace)
      ensures xpdb.Some? ==>
                && calls' == calls + [UnlockCall(id, xpdb.value.lease)]
                && old(locks.api.trace) <= locks.api.trace
                && UnlockMade(id, xpdb.value.lease, Since(old(locks.api.trace), locks.api.trace))
                && SameOutside(old(locks.api.store), locks.api.store, locks.Slots(xpdb.value.lease))
                && OnlyRemoved(old(locks.api.store), locks.api.store)
                && (locks.api.reliable ==> ForeignStay(old(locks.api.store), locks.api.store, id))
                && (locks.api.reliable && NoneForeign(old(locks.api.store), locks.Slots(xpdb.value.lease), id) ==>
                      forall s | s in locks.Slots(xpdb.value.lease) :: s !in locks.api.store.leases)
    {
      calls' := calls;
      if xpdb.Some? {
        var _ := locks.Unlock(id, xpdb.value.lease);
        calls' := calls' + [UnlockCall(id, xpdb.value.lease)];
      }
      response := Respond(false, code);
    }

    /** Handle one admission request.  calls lists what it asked of the lock service. */
    method Handle(env: Env) returns (response: Response, calls: seq<Call>)
      modifies locks.api
      // a lease is asked for exactly when the pod is there to stay, nothing is pending, and
      // exactly one budget matches that is not suspended
      ensures calls != [] <==>
                && env.pod.Ok? && !env.pod.value.terminating && !env.pod.value.nodeLost
                && (forall c | c in env.pod.value.conditions :: !c.isDisruptionTarget || !c.isTrue)
                && env.preactivities == Ok(true)
                && env.xpdbs.Ok? && |env.xpdbs.value| == 1 && env.xpdbs.value[0].suspend in {None, Some(false)}
      ensures calls != [] <==> Governed(env)
      ensures calls == [] ==> locks.api.store == old(locks.api.store) && locks.api.trace == old(locks.api.trace)
      // without one: pods that go anyway, pods without a budget and those of a suspended one are
      // allowed, the others are not
      ensures calls == [] ==>
                (response.allowed <==>
                   || env.pod.Err? || env.pod.value.terminating || env.pod.value.nodeLost
                   || (exists c | c in env.pod.value.conditions :: c.isDisruptionTarget && c.isTrue)
                   || (&& env.preactivities == Ok(true) && env.xpdbs.Ok?
                       && (env.xpdbs.value == []
                           || (|env.xpdbs.value| == 1 && env.xpdbs.value[0].suspend == Some(true)))))
      // one Lock for the matching budget; one Unlock with the same arguments exactly after a
      // granted Lock that ends in a denial
      ensures calls != [] ==>
                && |calls| <= 2 && calls[0].LockCall?
                && calls[0].id == env.identity && calls[0].lease == env.xpdbs.value[0].lease
                && (|calls| == 2 <==> calls[0].granted && !response.allowed)
                && (|calls| == 2 ==> calls[1] == UnlockCall(calls[0].id, calls[0].lease))
      // under the lock the probe is asked unless there is none or it is switched off
      ensures calls != [] && env.xpdbs.value[0].probe in {Some(Probe(None)), Some(Probe(Some(true)))} ==>
                (response.allowed <==> calls[0].granted && env.budget == Ok(true) && env.probe == Ok(true))
      ensures calls != [] && env.xpdbs.value[0].probe in {None, Some(Probe(Some(false)))} ==>
                (response.allowed <==> calls[0].granted && env.budget == Ok(true))
      // nothing else is asked of the API servers, and everything that belongs to these calls is
      ensures old(locks.api.trace) <= locks.api.trace
      ensures calls != [] ==>
                Served(env.identity, env.xpdbs.value[0].lease, calls[0].granted, |calls| == 2,
                       Since(old(locks.api.trace), locks.api.trace))
      // an allow keeps every lease
      ensures calls != [] && response.allowed ==>
                HoldsAll(locks.api.store, locks.Slots(env.xpdbs.value[0].lease), env.identity, old(locks.api.now))
      // a denial after a granted Lock gives every lease back, when the servers are reliable
      ensures |calls| == 2 && locks.api.reliable ==>
                forall s | s in locks.Slots(env.xpdbs.value[0].lease) :: s !in locks.api.store.leases
      // live leases of others stay, when the servers are reliable
      ensures locks.api.reliable ==>
                OthersStay(old(locks.api.store), locks.api.store, env.identity, locks.api.now)
      // leases of other budgets stay
      ensures calls != [] ==>
                SameOutside(old(locks.api.store), locks.api.store, locks.Slots(env.xpdbs.value[0].lease))
      // error codes: 429 for what should be tried again, 500 for more than one budget
      ensures dryRun ==> response.code == None
      ensures !dryRun && calls == [] ==>
                response.code ==
                  (if response.allowed || env.preactivities.Err? then None
                   else if !env.preactivities.value then Some(429)
                   else if env.xpdbs.Ok? && |env.xpdbs.value| > 1 then Some(500) else None)
      ensures !dryRun && calls != [] ==>
                response.code ==
                  (if |calls| == 2 && (env.budget == Ok(false) || (env.budget == Ok(true) && env.probe == Ok(false)))
                   then Some(429) else None)
    {
      calls := [];
      if env.pod.Err? {
        return Respond(true, None), calls;
      }
      var pod := env.pod.value;
      if pod.terminating {
        return Respond(true, None), calls;
      }
      var condition := GetDisruptionTargetCondition(pod);
      if condition.Some? {
        return Respond(true, None), calls;
      }
      if pod.nodeLost {
        return Respond(true, None), calls;
      }
      if env.preactivities.Err? {
        response, calls := Deny(None, env.identity, None, calls);
        return;
      }
      if !env.preactivities.value {
        response, calls := Deny(None, env.identity, Some(TOO_MANY_REQUESTS), calls);
        return;
      }
      if env.xpdbs.Err? {
        return Respond(false, None), calls;
      }
      if |env.xpdbs.value| == 0 {
        return Respond(true, None), calls;
      }
      if |env.xpdbs.value| > 1 {
        return Respond(false, Some(INTERNAL_ERROR)), calls;
      }
      var xpdb := env.xpdbs.value[0];
      if xpdb.suspend.Some? && xpdb.suspend.value {
        return Respond(true, None), calls;
      }
      response, calls := Guard(env, xpdb);
    }

    /** The part of Handle that runs under the lock. */
    method Guard(env: Env, xpdb: Xpdb) returns (response: Response, calls: seq<Call>)
      requires Governed(env) && xpdb == env.xpdbs.value[0]
      modifies locks.api
      ensures 1 <= |calls| <= 2
      ensures calls[0].LockCall? && calls[0].id == env.identity && calls[0].lease == xpdb.lease
      ensures response.allowed <==> calls[0].granted && Cleared(env)
      ensures xpdb.probe in {Some(Probe(None)), Some(Probe(Some(true)))} ==>
                (response.allowed <==> calls[0].granted && env.budget == Ok(true) && env.probe == Ok(true))
      ensures xpdb.probe in {None, Some(Probe(Some(false)))} ==>
                (response.allowed <==> calls[0].granted && env.budget == Ok(true))
      ensures |calls| == 2 <==> calls[0].granted && !Cleared(env)
      ensures |calls| == 2 ==> calls[1] == UnlockCall(env.identity, xpdb.lease)
      ensures SameOutside(old(locks.api.store), locks.api.store, locks.Slots(xpdb.lease))
      ensures old(locks.api.now) <= locks.api.now
      ensures locks.api.reliable ==>
                OthersStay(old(locks.api.store), locks.api.store, env.identity, locks.api.now)
      ensures response.allowed ==>
                HoldsAll(locks.api.store, locks.Slots(xpdb.lease), env.identity, old(locks.api.now))
      ensures |calls| == 2 && locks.api.reliable ==>
                forall s | s in locks.Slots(xpdb.lease) :: s !in locks.api.store.leases
      ensures response.code == if !dryRun && |calls| == 2 && Refused(env) then Some(TOO_MANY_REQUESTS) else None
      ensures old(locks.api.trace) <= locks.api.trace
      ensures Served(env.identity, xpdb.lease, calls[0].granted, |calls| == 2,
                     Since(old(locks.api.trace), locks.api.trace))
    {
      var id := env.identity;
      ghost var st, asked := locks.api.store, locks.api.trace;
      var granted := locks.Lock(id, xpdb.lease);
      calls := [LockCall(id, xpdb.lease, granted)];
      ghost var mid, midAsked := locks.api.store, locks.api.trace;
      if !granted {
        IsServed(id, xpdb.lease, granted, false, asked, midAsked, midAsked);
        return Respond(false, None), calls;
      }
      response, calls := Judge(env, xpdb, id, calls);
      IsServed(id, xpdb.lease, granted, |calls| == 2, asked, midAsked, locks.api.trace);
      LockedThenUnlocked(st, mid, locks.api.store, locks.Slots(xpdb.lease), id, locks.api.now, locks.api.reliable);
    }

    /** Budget and probe, with the leases held: an allow touches nothing, a denial unlocks. */
    method Judge(env: Env, xpdb: Xpdb, id: Identity, calls: seq<Call>) returns (response: Response, calls': seq<Call>)
      requires Governed(env) && xpdb == env.xpdbs.value[0]
      modifies locks.api`store, locks.api`trace
      ensures response.allowed <==> Cleared(env)
      ensures response.code == if !dryRun && Refused(env) then Some(TOO_MANY_REQUESTS) else None
      ensures Cleared(env) ==>
                calls' == calls && locks.api.store == old(locks.api.store) && locks.api.trace == old(locks.api.trace)
      ensures !Cleared(env) ==>
                && calls' == calls + [UnlockCall(id, xpdb.lease)]
                && old(locks.api.trace) <= locks.api.trace
                && UnlockMade(id, xpdb.lease, Since(old(locks.api.trace), locks.api.trace))
      ensures SameOutside(old(locks.api.store), locks.api.store, locks.Slots(xpdb.lease))
      ensures locks.api.reliable ==> ForeignStay(old(locks.api.store), locks.api.store, id)
      ensures !Cleared(env) && locks.api.reliable && NoneForeign(old(locks.api.store), locks.Slots(xpdb.lease), id) ==>
                forall s | s in locks.Slots(xpdb.lease) :: s !in locks.api.store.leases
    {
      if env.budget.Err? {
        response, calls' := Deny(Some(xpdb), id, None, calls);
        return;
      }
      if !env.budget.value {
        response, calls' := Deny(Some(xpdb), id, Some(TOO_MANY_REQUESTS), calls);
        return;
      }
      if xpdb.probe.Some? && (xpdb.probe.value.enabled.None? || xpdb.probe.value.enabled.value) {
        if env.probe.Err? {
          response, calls' := Deny(Some(xpdb), id, None, calls);
          return;
        }
        if !env.probe.value {
          response, calls' := Deny(Some(xpdb), id, Some(TOO_MANY_REQUESTS), calls);
          return;
        }
      }
      response, calls' := Respond(true, None), calls;
    }
  }

  lemma LockedThenUnlocked(a: Store, b: Store, c: Store, slots: seq<Slot>, id: Identity, now: Time, reliable: bool)
    requires SameOutside(a, b, slots) && SameOutside(b, c, slots) && LiveStay(a, b, now)
    requires reliable ==> ForeignStay(b, c, id)
    ensures SameOutside(a, c, slots) && (reliable ==> OthersStay(a, c, id, now))
  {
  }
}
