/** What the lock service asks of the API servers and of the clock, call by call and with the
    answers.  The shapes below say which calls an operation makes, whatever the answers are:
    also when calls fail, and in which order. */
module ApiTrace {
  import opened Leases

  datatype CreateAnswer = Created | AlreadyExists | CreateFailed

  datatype GetAnswer = Found(lease: Lease) | Missing | GetFailed

  datatype Event =
    | Clock(t: Time)
    | Creates(slot: Slot, holder: Identity, stamp: Time, duration: nat, created: CreateAnswer)
    | Gets(slot: Slot, got: GetAnswer)
    | Updates(slot: Slot, seen: Lease, holder: Identity, stamp: Time, done: bool)
    | Deletes(slot: Slot, done: bool)
    | Drops(slot: Slot)     // a call to the endpoint of the slot, or its answer, got lost

  /** LocalLock: one Create; only if something is there, one Get; only if that is found and is
      past its deadline at the next reading of the clock, one Update of what was found. */
  predicate LockShape(template: nat, id: Identity, slot: Slot, made: seq<Event>, ok: bool) {
    && 2 <= |made| && made[0].Clock? && made[1].Creates?
    && made[1] == Creates(slot, id, made[0].t, template, made[1].created)
    && (if made[1].created.AlreadyExists? then TakeoverShape(id, slot, made[2..], ok)
        else |made| == 2 && (ok <==> made[1].created.Created?))
  }

  predicate TakeoverShape(id: Identity, slot: Slot, made: seq<Event>, ok: bool) {
    && 1 <= |made| && made[0].Gets? && made[0].slot == slot
    && (if !made[0].got.Found? then |made| == 1 && !ok
        else
          && 2 <= |made| && made[1].Clock?
          && (if Live(made[0].got.lease, made[1].t) then |made| == 2 && !ok
              else |made| == 4 && made[2].Clock?
                   && made[3] == Updates(slot, made[0].got.lease, id, made[2].t, ok)))
  }

  /** LocalUnlock: exactly one Get.  NotFound is a success and another holder a refusal, both
      without a Delete; otherwise, also when the Get failed, one Delete decides. */
  predicate UnlockShape(id: Identity, slot: Slot, made: seq<Event>, ok: bool) {
    && 1 <= |made| && made[0].Gets? && made[0].slot == slot
    && match made[0].got
       case Missing => |made| == 1 && ok
       case Found(lease) => if lease.holder != id then |made| == 1 && !ok else made[1..] == [Deletes(slot, ok)]
       case GetFailed => made[1..] == [Deletes(slot, ok)]
  }

  datatype Operation = Locking(template: nat) | Unlocking

  predicate Shape(op: Operation, id: Identity, slot: Slot, made: seq<Event>, ok: bool) {
    match op
    case Locking(template) => LockShape(template, id, slot, made, ok)
    case Unlocking => UnlockShape(id, slot, made, ok)
  }

  /** The call to an endpoint: lost on the way there, lost on the way back, or answered. */
  predicate CallShape(op: Operation, id: Identity, slot: Slot, made: seq<Event>, ok: bool) {
    || (made == [Drops(slot)] && !ok)
    || Shape(op, id, slot, made, ok)
    || (&& 1 <= |made| && made[|made| - 1] == Drops(slot) && !ok
        && (Shape(op, id, slot, made[..|made| - 1], true) || Shape(op, id, slot, made[..|made| - 1], false)))
  }

  /** One call per endpoint, to all of them whatever the others answer; success means that all
      succeed.  Nothing is asked besides. */
  ghost predicate AllAsked(op: Operation, id: Identity, slots: seq<Slot>, made: seq<Event>, ok: bool)
    decreases |slots|, 1
  {
    if slots == [] then made == [] && ok
    else exists split: nat, before: bool, last: bool :: SplitAt(op, id, slots, made, split, before, last) && ok == (before && last)
  }

  /** The call to the last endpoint begins here. */
  ghost predicate SplitAt(op: Operation, id: Identity, slots: seq<Slot>, made: seq<Event>, split: nat, before: bool, last: bool)
    requires slots != []
    decreases |slots|, 0
  {
    && split <= |made| && AllAsked(op, id, slots[..|slots| - 1], made[..split], before)
    && CallShape(op, id, slots[|slots| - 1], made[split..], last)
  }

  /** The local cluster first; the endpoints only if it says yes. */
  ghost predicate LocalFirst(op: Operation, id: Identity, here: Slot, remote: seq<Slot>, made: seq<Event>, ok: bool) {
    exists split: nat ::
      && split <= |made|
      && ((Shape(op, id, here, made[..split], false) && split == |made| && !ok)
          || (Shape(op, id, here, made[..split], true) && AllAsked(op, id, remote, made[split..], ok)))
  }

  /** What was asked since. */
  function Since(before: seq<Event>, after: seq<Event>): seq<Event>
    requires before <= after
  {
    after[|before|..]
  }

  lemma SinceBoth(a: seq<Event>, b: seq<Event>, c: seq<Event>)
    requires a <= b <= c
    ensures a <= c && Since(a, c) == Since(a, b) + Since(b, c)
  {
  }

  lemma AskNext(op: Operation, id: Identity, slots: seq<Slot>, i: nat, a: seq<Event>, b: seq<Event>, c: seq<Event>,
                before: bool, last: bool)
    requires i < |slots| && a <= b <= c
    requires AllAsked(op, id, slots[..i], Since(a, b), before) && CallShape(op, id, slots[i], Since(b, c), last)
    ensures a <= c && AllAsked(op, id, slots[..i + 1], Since(a, c), before && last)
  {
    SinceBoth(a, b, c);
    var made, split := Since(a, c), |Since(a, b)|;
    assert slots[..i + 1][..i] == slots[..i];
    assert made[..split] == Since(a, b) && made[split..] == Since(b, c);
    assert SplitAt(op, id, slots[..i + 1], made, split, before, last);
  }

  lemma LocalRefused(op: Operation, id: Identity, here: Slot, remote: seq<Slot>, a: seq<Event>, b: seq<Event>)
    requires a <= b && Shape(op, id, here, Since(a, b), false)
    ensures LocalFirst(op, id, here, remote, Since(a, b), false)
  {
    var made := Since(a, b);
    assert made[..|made|] == made;
  }

  lemma LocalThenAll(op: Operation, id: Identity, here: Slot, remote: seq<Slot>, a: seq<Event>, b: seq<Event>,
                     c: seq<Event>, ok: bool)
    requires a <= b <= c && Shape(op, id, here, Since(a, b), true) && AllAsked(op, id, remote, Since(b, c), ok)
    ensures a <= c && LocalFirst(op, id, here, remote, Since(a, c), ok)
  {
    SinceBoth(a, b, c);
    var made, split := Since(a, c), |Since(a, b)|;
    assert made[..split] == Since(a, b) && made[split..] == Since(b, c);
  }

  // ----- what the shapes mean

  /** An operation deletes nothing but what it was told to unlock, and a Lock deletes nothing. */
  predicate NoDeletes(made: seq<Event>) {
    forall e | e in made :: !e.Deletes?
  }

  lemma CallDeletesNothing(template: nat, id: Identity, slot: Slot, made: seq<Event>, ok: bool)
    requires CallShape(Locking(template), id, slot, made, ok)
    ensures NoDeletes(made)
  {
    var n := |made| - 1;
    if made != [] && made[n] == Drops(slot) {
      assert made == made[..n] + [made[n]];
    }
  }

  lemma {:induction false} NothingIsRolledBack(template: nat, id: Identity, slots: seq<Slot>, made: seq<Event>, ok: bool)
    requires AllAsked(Locking(template), id, slots, made, ok)
    ensures NoDeletes(made)
    decreases |slots|
  {
    if slots != [] {
      var split: nat, before: bool, last: bool :|
        SplitAt(Locking(template), id, slots, made, split, before, last) && ok == (before && last);
      NothingIsRolledBack(template, id, slots[..|slots| - 1], made[..split], before);
      CallDeletesNothing(template, id, slots[|slots| - 1], made[split..], last);
      assert made == made[..split] + made[split..];
    }
  }
}
