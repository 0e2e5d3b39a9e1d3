/** The lease object and the per-cluster API stores that hold it.

    A slot is one lease object: a cluster together with a lease name.  The stores give the
    optimistic concurrency of the Kubernetes API: every write is stamped with a version
    that was never used before, Create needs the slot to be empty, Update needs the version
    the writer has read, Delete needs nothing.

    Identities, clusters and lease names are only ever compared, so they are plain numbers
    here; module LeaseNames relates names to the digests they are made from. */
module Leases {
  type Time = int
  type Identity = nat
  type Cluster = nat
  type LeaseName = nat

  datatype Slot = Slot(cluster: Cluster, name: LeaseName)

  /** duration is the one stored in the object: a takeover leaves it as it was. */
  datatype Lease = Lease(holder: Identity, acquired: Time, duration: nat, version: nat)

  /** The deadline of the lease is strictly after now, so nobody may take it over. */
  predicate Live(lease: Lease, now: Time) {
    now < lease.acquired + lease.duration
  }

  datatype Store = Store(leases: map<Slot, Lease>, nextVersion: nat) {
    predicate Sound() {
      forall slot | slot in leases :: leases[slot].version < nextVersion
    }

    /** Nobody holds a live lease on the slot. */
    predicate Free(slot: Slot, now: Time) {
      slot in leases ==> !Live(leases[slot], now)
    }

    /** Every stored lease runs for at least this long. */
    predicate Lasts(window: nat) {
      forall slot | slot in leases :: window <= leases[slot].duration
    }

    /** How long a lease on the slot will run: as long as the one that is taken over, or as
        long as the template says when there is none. */
    function Term(slot: Slot, template: nat): nat {
      if slot in leases then leases[slot].duration else template
    }

    function Write(slot: Slot, holder: Identity, acquired: Time, duration: nat): Store {
      Store(leases[slot := Lease(holder, acquired, duration, nextVersion)], nextVersion + 1)
    }

    function Remove(slot: Slot): Store {
      Store(leases - {slot}, nextVersion)
    }
  }
}
