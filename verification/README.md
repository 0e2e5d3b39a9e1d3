# x-pdb: a model of the cross-cluster disruption budget

x-pdb is an admission webhook that decides whether a pod may be evicted or deleted when its
disruption budget spans several Kubernetes clusters. A handler takes a lease in every cluster,
counts healthy and expected pods everywhere, decides, and, when it allows the disruption, keeps
the leases until the deletion can be seen by everybody else.

This project models that protocol and the arithmetic below it, and proves what they guarantee.
`dafny verify dfyconfig.toml` checks all of it.

## What is modelled

- `Leases.dfy`: a lease with the duration stored in it, the per-cluster stores and their optimistic
  concurrency (Create on an empty slot, Update as compare-and-swap on the version read, unconditional
  Delete).
- `LockProtocol.dfy`: the lease lock as a step system. Every API call, clock reading and passing of
  time is one step; any number of requests interleave; a call may fail before or after its effect;
  remote calls may arrive after their caller gave up; endpoints may lead to one cluster twice.
- `Leftovers.dfy`: which leases from earlier times mutual exclusion bears. `Unlocking.dfy`: when the
  unconditional Delete of an unlock is harmless. `Progress.dfy`: how long leftover leases can block a
  Lock. `CallOrder.dfy`: in which order calls are made. `Runs.dfy` builds the runs that these need.
- `Admission.dfy`: the handlers of all clusters and replicas over that lock, with pods, several
  budgets at once, cluster-by-cluster collection, the probe, the webhook timeout and the delay until
  a deletion shows. `FailClosed.dfy`, `Discipline.dfy`, `QuietCollection.dfy`, `Timing.dfy`,
  `Necessity.dfy` and `EvictionCapacity.dfy` hold further results about these runs; `Handling.dfy` builds
  the runs they need.
- `Budget.dfy`, `BudgetLaws.dfy`: desired healthy count, verdict, rounding, eviction capacity, with
  Go's 32-bit wrap-around (`Int32.dfy`).
- `Scale.dfy`: the five finders and the memoising loop of the expected scale.
- `Collection.dfy`: summing the counts of all clusters, and which budgets match a pod. `Central.dfy`:
  the same mesh as one merged cluster.
- `LockService.dfy`, `Handler.dfy`: the lock service and the handler as imperative code on the
  stores, for one caller at a time. `ApiTrace.dfy`: exactly which calls they make, whatever is answered.
  `Refinement.dfy`: these calls are runs of `LockProtocol.dfy`.
- `Converters.dfy`, `LeaseNames.dfy`: selectors over the wire, and the lease name made of them.

## Main results

- **Whole-run budget safety** (`Admission.BudgetsAlwaysMet`, `Admission.EvictionLeavesBudgetMet`): in
  every interleaving, every budget stays met, even after taking away all evictions that were allowed
  and do not show yet. The assumptions are in `Admission.Assumed`, one per kind of step, and **none of
  them can be spared** (`Necessity.EveryClauseIsNeeded`). That counts fit an int32 is not among them.
- **The timing is exact** (`Timing.SafeExactlyWhenInTime`): this holds if and only if webhook timeout
  plus visibility delay is at most the duration of new leases and of those left behind. With the
  shipped 5 s and 2 s that is a visibility delay of at most 3 s (`Timing.ShippedDefaults`).
- **Mutual exclusion, one winner per lease generation, no endpoint twice**, over all runs
  (`LockProtocol`). Exclusion holds **exactly when no lease left behind runs shorter than new ones**
  (`Leftovers.ExcludesExactlyWhenLasting`): a takeover keeps the stored duration.
- **A Delete is harmless exactly while the unlocker's own lease is live**
  (`Unlocking.HarmlessExactlyWhileLive`). The code does not check that, so it is an assumption on time;
  one late Delete ends mutual exclusion (`Unlocking.LateDeleteBreaksExclusion`).
- **The distributed verdict is the central one** (`Central.DistributedEqualsCentral`): the verdict on
  summed counts is that of one cluster that holds all objects and pods of the mesh.
- **Exact eviction capacity** (`EvictionCapacity.CapacityIsExact`): on any mesh, over all interleavings
  in which no pod recovers or comes, as many ready pods can be evicted as the healthy count exceeds the
  desired one, and no more.
- **Lease discipline** (`Discipline.LeaseDiscipline`, `Handler.Webhook.Handle`): over every run and
  without assumptions, a denial under the lock unlocks, a failed Lock does not, an allow keeps its leases.
- **Bounded blocking** (`Progress.LoneLockIsGranted`): crashed, timed-out and partial Locks block others
  only until their leases expire.
- **The memoised scale search is its own specification** (`Scale.FindExpectedScale`), although the
  cache is read under one UID and filled under another; **the order of the typed finders matters in
  exactly one situation** (`Scale.OrderIsIrrelevantExactly`), and **the generic finder has to be last**
  (`Scale.GenericFinderHasToBeLast`).

## Where code and documentation disagree

The model follows the code.

- The flag text says that dry-run never rejects (cmd/controller/main.go:95-97). The code only drops the
  status code of the response; denials stay denials (internal/webhooks/validation.go:246-254).
- Comments in the typed finders say that the only error of a Get is NotFound. Any error is treated that
  way and the search goes on (internal/pdb/scale.go:145-149).
- If the Get of an unlock fails with another error than NotFound, the holder check compares the caller
  with itself and the Delete goes ahead (internal/lock/service.go:158-168). Mutual exclusion does not
  need that Get to succeed, only the Delete to be in time.
- The number of ready pods that can be evicted in a row is the healthy count minus the desired one
  only while the desired count is not negative; a maxUnavailable above the expected count makes it
  negative, and then all healthy pods can go (`BudgetLaws.Capacity`).
- A takeover resets holder and stamp and keeps the stored duration, while the comment on the default
  duration speaks of it as the time a budget is locked (internal/lock/leases.go:36-45). Raising the
  default therefore does not lengthen leases that exist; see `Leftovers` and the leftover duration in
  `Timing`.

## Model

| member | source | states |
|---|---|---|
| LockProtocol.MutualExclusion | internal/lock/service.go:70-154 | In every timely run from leftover leases that do not run shorter than new ones, two requests that share a slot are never both between a successful Lock and their earliest acquire stamp plus the lease duration without one having deleted its lease there. |
| LockProtocol.StepKeepsLasting | internal/lock/service.go:117-140 | The deadline check reads the stored duration and a takeover keeps it, so only an earlier lease can make a lease shorter than the template says. |
| Leftovers.ExcludesExactlyWhenLasting | internal/lock/service.go:117-140 | Mutual exclusion holds in all timely runs from a state if and only if no lease left behind in it has a shorter duration than new ones. |
| Leftovers.ShortLeaseIsShared | internal/lock/service.go:137-140 | A leftover lease with a shorter duration is taken over twice, and both requests are then within their protected windows. |
| Leftovers.SlowCallsShortenLeases | internal/lock/service.go:105-108 | A lease carries the clock reading from before the call that writes it: on any free slot and for any delay of that call, the LocalLock succeeds with a lease that has used up that much of its term, be it all of it. |
| LockProtocol.GrantedEndpointsAreDistinct | internal/lock/service.go:110-126 | A Lock that has succeeded within the lease duration reached pairwise distinct clusters, none of them local: a live lease is refused even to its own holder, so no cluster is counted twice. |
| LockProtocol.UnlockKeepsForeignLeases | internal/lock/service.go:157-169 | With Get and Delete as separate steps, a Delete before the unlocker's own deadline leaves every lease of every other holder in place, in every timely run and whatever the Get answered. |
| LockProtocol.AtMostOneWinner | internal/lock/service.go:108-146 | In every run, timely or not, a slot won by one LocalLock (by Create or by takeover) is won again only after that lease was deleted or has reached its deadline. |
| LockProtocol.LeaseStaysUntilDeadline | internal/lock/service.go:117-146 | Over any run without a Delete on the slot, a stored lease is still the same object as long as its deadline has not been reached. |
| LockProtocol.LiveLeaseSurvivesStep | internal/lock/service.go:117-140 | No step of anybody overwrites or removes a live lease, except a Delete on that very slot. |
| LockProtocol.StepKeepsConsistent | internal/lock/service.go:104-154 | Every step keeps: versions name one lease each, only expired leases are about to be updated, granted requests have acquired everything, unlocking only follows a granted Lock. |
| LockProtocol.StepKeepsHeld | internal/lock/service.go:157-169 | Every timely step keeps: a lease that was acquired, is live and was not deleted by its holder is in its store. |
| LockProtocol.ProtectedSlotsAreDisjoint | internal/lock/service.go:171-216 | Two protected requests on one slot are one request and one endpoint. |
| Unlocking.HarmlessExactlyWhileLive | internal/lock/service.go:159-168 | Wherever a Delete is about to land, taken over already or not: whatever the others do at this instant it removes no lease but the one its own LocalLock acquired, if and only if that lease has not reached its deadline. |
| Unlocking.HarmfulOnceFree | internal/lock/service.go:164-168 | Once the slot is free, any new request can be granted it between the holder check and the Delete, and the Delete then removes that request's lease. |
| Unlocking.LateDeleteBreaksExclusion | internal/lock/service.go:157-169 | For every positive lease duration, every start and every slot that is empty there, a run with one late Delete leaves two requests protected on one slot. |
| Unlocking.AcquiredStays | internal/lock/service.go:137-154 | What a LocalLock has acquired is not changed by any later step of any run. |
| Progress.LoneLockIsGranted | internal/lock/service.go:104-146 | Whatever crashes, timeouts and partial locks left behind, once the leases on its slots have expired a Lock that runs alone and without errors, in any order of its remote endpoints and with any pauses, takes at most six steps per endpoint, is refused nowhere, and can be granted when no call is left to make. |
| Progress.AloneRun | internal/lock/service.go:110-146 | Every step of such a run keeps every LocalLock acquired or unhindered, and brings it closer to its end. |
| CallOrder.LocalComesFirst | internal/lock/service.go:70-101 | In every run, a remote lease is asked for only when the local one was granted, and given back only when the local one is gone. |
| CallOrder.NoCallTwice | internal/lock/service.go:104-169 | In every run a LocalLock takes at most six steps and a LocalUnlock two: no call is made twice, and a refused one is not tried again. |
| Admission.BudgetsAlwaysMet | internal/webhooks/validation.go:198-243 | When timeout plus visibility is at most the duration of new and of leftover leases, every budget that is met at the start is met in every state of every run, all allowed but not yet visible evictions taken away, for all budgets at once. |
| Admission.EvictionLeavesBudgetMet | internal/pdb/service.go:96-215 | From arbitrary pods, an eviction that takes effect leaves the budget of its pod met, all allowed but not yet visible evictions taken away. |
| Admission.StepKeepsInv | internal/webhooks/validation.go:204-243 | Every step keeps what each handler relies on: lists hold only pods that are still healthy, and after a positive verdict the budget is met without the candidate. |
| Admission.Exclusive | internal/webhooks/validation.go:205-243 | Two requests of one budget never rely on their leases at the same time. |
| Admission.AdmittedIsAlone | internal/webhooks/validation.go:240-243 | While an allowed eviction does not show yet, no other request of its budget is collecting, cleared or admitted within its lease duration. |
| Admission.VerdictIsSound | internal/pdb/service.go:113-123 | A positive verdict on lists read one at a time means that the healthy pods of now, without the candidate, meet the budget of the whole mesh. |
| Admission.AllowedMeansRoom | internal/pdb/service.go:193-202 | A positive verdict on an int32 count holds of the count itself: wrap-around never lets an eviction through. |
| Admission.CollectedAtMostHealthy | internal/pdb/service.go:99-114 | In every run, counts collected cluster by cluster under the lock add up to at most the pods that are healthy everywhere now. |
| QuietCollection.QuietCollectionIsExact | internal/pdb/service.go:217-268 | In every run in which no step changes pods from the first list read to the last, the counts add up to exactly the healthy pods, and the verdict is the one on a snapshot of the whole mesh. |
| QuietCollection.ListIsCounted | internal/pdb/service.go:270-282 | What a handler of the run model counts in a cluster is what the counting loop counts on any listing of the pods there. |
| Admission.OtherBudgetsUntouched | internal/pdb/service.go:127-147 | Evicting a pod with exactly one matching budget leaves the healthy pods of every other budget as they were, so one budget's lease is enough. |
| Admission.ExpectedIsTotal | internal/pdb/service.go:263-266 | Adding up over endpoints that reach every cluster once gives the expected count of the whole mesh. |
| FailClosed.AllowedOnlyIfVouched | internal/webhooks/validation.go:204-225 | In every run, without any assumption, an eviction is allowed only if every configured endpoint granted its lease and reported its pods and the verdict on exactly these reports is positive. |
| Discipline.LeaseDiscipline | internal/webhooks/validation.go:204-243 | In every run, without any assumption: a request denied after its Lock was granted is unlocking, one whose Lock failed is denied and is not, and every other one past its Lock has it as granted; the local list is read last. |
| Discipline.EvictionIsFinal | internal/webhooks/validation.go:240-243 | In every run, an eviction that takes effect is never undone: its request stays evicted and its pod stays on its way out. |
| Timing.SafeExactlyWhenInTime | internal/lock/leases.go:37-45 | For every positive webhook timeout: no run on any mesh breaks a budget if and only if timeout plus visibility is at most the lease duration and at most the least duration stored in a leftover lease. |
| Timing.UnsafeIfLate | internal/lock/leases.go:37-45 | If new leases or leftover ones are shorter than timeout plus visibility, two evictions overlap and take a budget of one pod to zero. |
| Timing.ShippedDefaults | charts/x-pdb/values.yaml:50 | With the shipped lease duration, also in leftover leases, and the shipped webhook timeout, budgets are safe if and only if deletions show within 3 s. |
| Necessity.EveryClauseIsNeeded | internal/webhooks/validation.go:198-243 | For each assumption (deletions show in time, every cluster is asked, unlocks are in time, snapshots are fresh, nothing else is lost) and all durations, a run that meets all the others breaks a budget. |
| Necessity.FreshSnapshotIsNeeded | internal/pdb/service.go:196-202 | One request whose snapshot is unready while the lists count its pod takes a used-up budget below what it asks for. |
| Necessity.TimelyUnlockIsNeeded | internal/lock/service.go:157-169 | One Delete after the deadline of its own lease lets two evictions overlap. |
| Necessity.CoveringIsNeeded | internal/lock/service.go:171-216 | Two requests that each ask only their own cluster overlap. |
| Handling.GetsAdmitted | internal/webhooks/validation.go:204-243 | On any mesh, a request that finds its slots free and room in its budget is admitted, without anybody else moving. |
| EvictionCapacity.CapacityIsExact | internal/pdb/service.go:169-215 | Over all runs on any mesh in which no pod recovers or comes, the most ready pods that can be evicted is the healthy count minus the desired one, and some run evicts that many. |
| EvictionCapacity.SpentAtMostCapacity | internal/pdb/service.go:193-202 | No such run evicts more ready pods than that, in whatever interleaving. |
| EvictionCapacity.RunSpends | internal/pdb/service.go:270-282 | In such a run the healthy count falls by exactly the ready pods evicted; evicting unready pods spends nothing. |
| BudgetLaws.RoundingDuality | internal/pdb/service.go:173-191 | maxUnavailable p% asks for the floor of (100-p)% of the expected count, minAvailable (100-p)% for the ceiling; they differ by at most one and agree exactly when 100 divides p times the count. |
| BudgetLaws.DesiredIsMonotone | internal/pdb/service.go:173-191 | More expected pods never lower the number that has to stay healthy, for either field. |
| BudgetLaws.FullHouse | internal/pdb/service.go:173-202 | With all expected pods healthy, a ready pod may go under maxUnavailable p% exactly when p is positive, under minAvailable p% exactly when the rest is worth a whole pod. |
| BudgetLaws.AbsoluteBudgets | internal/pdb/service.go:169-202 | For any counts: under maxUnavailable n a pod may go exactly when at most n expected pods are then missing, whatever minAvailable says; under minAvailable n exactly when n are left; always without a number or a budget; a malformed string is an error. |
| BudgetLaws.PercentagesRoundUp | internal/pdb/service.go:174-190 | A percentage, also above 100, stands for the least number of pods that is at least that share of the expected ones. |
| BudgetLaws.VerdictCountsTheRest | internal/pdb/service.go:193-202 | The verdict is positive exactly when the healthy pods that are then left are as many as desired; an unready pod takes none away. |
| BudgetLaws.StaleSnapshotOvershoots | internal/pdb/service.go:196-202 | If the lists count the candidate as healthy but its snapshot is unready, the eviction that is let through breaks the budget exactly when the budget is used up. |
| BudgetLaws.RunSpendsCapacity | internal/pdb/service.go:193-202 | A sequence of allowed evictions lowers the healthy count and the capacity by exactly its ready pods; unready pods are free. |
| BudgetLaws.ExactCapacity | internal/pdb/service.go:169-215 | No further ready pod is allowed if and only if the evicted ready pods are as many as the healthy count exceeds the desired one. |
| BudgetLaws.CapacityIsReached | internal/pdb/service.go:169-215 | There is a sequence of allowed evictions that uses the whole capacity. |
| BudgetLaws.CountHealthyPods | internal/pdb/service.go:270-282 | The loop counts the ready pods that are not being deleted, as an int32. |
| Scale.FindExpectedScale | internal/pdb/scale.go:71-133 | On coherent objects it succeeds exactly when every managed pod resolves, and returns the sum of the scales of the distinct controllers behind the pods, with the unmanaged pods listed; pods none of whose owners is their controller expect nothing. |
| Scale.TallyControllers | internal/pdb/scale.go:84-124 | On coherent objects the memoising loop tallies every controller exactly once, although its cache is looked up under the owner's UID and filled under the resolved one; on any objects it keeps what it has found and fails at the first pod that needs a controller and does not resolve. |
| Scale.AddUp | internal/pdb/scale.go:126-130 | The sum over the map does not depend on the order in which it is walked, int32 wrap-around included. |
| Scale.FindController | internal/pdb/scale.go:106-119 | The loop over the finders returns what the first finder that fails or answers says. |
| Scale.ExpectedScaleIgnoresOrder | internal/pdb/scale.go:72-76 | Two lists with the same pods, in any order and with any repetition, have the same expected scale. |
| Scale.UidsMakeCoherent | internal/pdb/scale.go:101-104 | When a UID stands for one object, as Kubernetes promises, the cache may be trusted. |
| Scale.ResolvesToOwnerOrDeployment | internal/pdb/scale.go:139-276 | A pod resolves to the controller it refers to, or to a Deployment with its own UID and replica count. |
| Scale.ControllerIsFirst | internal/pdb/scale.go:95-99 | The controller is the first owner marked as one; there is none exactly when no owner is. |
| Scale.UnmanagedAll | internal/pdb/scale.go:95-99 | A pod is unmanaged exactly when none of its owners is its controller, and all such pods are listed by name. |
| Scale.GroupsAreParsed | internal/pdb/scale.go:294-311 | A version has no group, a group and a version with a slash between them have that group, and anything with more slashes is an error. |
| Scale.ScaleAnswersExactly | internal/pdb/scale.go:231-276 | The scale subresource answers exactly when it was read, carries the UID of the reference and has a replica count, as an int32. |
| Scale.ScalePassesExactly | internal/pdb/scale.go:253-268 | It leaves a reference to nobody, without an error, exactly when it belongs to another object or is missing although the kind has scales. |
| Scale.ResolutionIsOneLook | internal/pdb/scale.go:135-276 | For well-formed API versions the five finders in turn give what a single look at the named object gives, and the scale subresource decides only where that says nothing. |
| Scale.AtMostOneTypedAnswer | internal/pdb/scale.go:139-229 | For every reference and all objects at most one of the four typed finders answers. |
| Scale.OrderIsIrrelevantExactly | internal/pdb/scale.go:135-137 | Every order of the typed finders gives the same resolution if and only if the named ReplicaSet has no owner with a malformed API version and a kind other than Deployment. |
| Scale.GenericFinderHasToBeLast | internal/pdb/scale.go:135-137 | Of all orders of the five finders, exactly those that ask the generic one last resolve every reference with well-formed API versions as the usual order does. |
| Scale.GenericFinderMisreports | internal/pdb/scale.go:231-276 | Wherever both answer, any order that asks the generic finder before the one for Deployments counts the pod for its ReplicaSet instead of its Deployment. |
| Collection.GetPodCounts | internal/pdb/service.go:74-88 | The counts of one cluster: its expected scale and its healthy pods; on coherent objects an error exactly when the selector is invalid, the list fails or a managed pod does not resolve. |
| Collection.GetRemotePodCounts | internal/pdb/service.go:258-267 | One failed response fails the call; otherwise the int32 totals of all responses. |
| Collection.CanPodBeDisrupted | internal/pdb/service.go:96-124 | Any error makes the answer an error; otherwise it is the verdict on the total of remote and local counts, which for absolute numbers means that at most n of all expected pods are then missing, or n are left. |
| Collection.VerdictIgnoresOrder | internal/pdb/service.go:113-123 | The verdict does not depend on the order of the responses nor on which cluster evaluates. |
| Central.DistributedEqualsCentral | internal/pdb/service.go:96-124 | Merge the API objects and pods of clusters with separate UIDs into one cluster: counting there fails exactly when it fails in one of them, and otherwise the verdict on its counts is the distributed one, int32 wrap-around included. |
| Central.ResolvePodMerged | internal/pdb/scale.go:139-276 | All five finders resolve a pod in the merged cluster as in its own. |
| Central.TalliesMerged | internal/pdb/scale.go:72-76 | The controllers tallied in the merged cluster are those of all clusters together. |
| Central.CoherentMerged | internal/pdb/scale.go:101-104 | The memoising search may trust its cache in the merged cluster if it may in the parts. |
| Collection.GetXPdbsForPod | internal/pdb/service.go:127-147 | Exactly the matching budgets, in list order; a failed list or one invalid selector in the namespace is an error. |
| Collection.MatchingCounts | internal/webhooks/validation.go:169-198 | The number of results is the number of list entries that match, so a single result means a single matching budget. |
| Collection.MatchingFinds | internal/pdb/service.go:134-144 | The results are exactly the matching entries of the list. |
| Collection.MatchingInOrder | internal/pdb/service.go:134-144 | The results come in list order. |
| LockService.ApiServers.Create | internal/lock/service.go:108 | Create writes an empty slot, leaves a taken one alone, and after a failure has done either of these or nothing. |
| LockService.ApiServers.Update | internal/lock/service.go:137-140 | Update writes only over the version that was read and keeps its duration, else the store is as before. |
| LockService.ApiServers.Delete | internal/lock/service.go:168 | Delete removes the slot whoever holds it. |
| LockService.Service.LocalLock | internal/lock/service.go:104-154 | On any servers: one Create; only if something is there one Get; only if that is found and past its deadline one Update of it. Either nothing was written, or the slot was free and now holds the caller's lease stamped during the call, with the duration of the lease it replaced; success means the latter; reliable servers refuse only live leases. |
| LockService.Service.TakeOver | internal/lock/service.go:110-146 | On any servers: one Get, and one Update of what was found exactly if that is past its deadline at the next reading of the clock; the lease keeps its duration. |
| LockService.Service.LocalUnlock | internal/lock/service.go:157-169 | On any servers: exactly one Get; an answer with another holder is a refusal and NotFound a success, both without a Delete and with the store as it was; otherwise one Delete decides. With reliable servers it succeeds exactly when the slot is empty or the caller's own, and then the slot is empty. |
| LockService.Service.CallLock | internal/state/server/server.go:151-164 | A remote call is lost, or makes exactly the calls of one LocalLock; it reports success only if that succeeded and the answer arrived. |
| LockService.Service.CallUnlock | internal/state/server/server.go:166-179 | A remote call is lost, or makes exactly the calls of one LocalUnlock; it reports success only if that succeeded and the answer arrived. |
| LockService.Service.RemoteLock | internal/lock/service.go:171-216 | On any servers every endpoint is called once, whatever the others answer, and nothing else is asked. With reliable servers every endpoint whose slot was free holds the caller's lease afterwards, whether the call succeeds or not; success means all are held, and distinct within the lease duration; live leases and other slots stay as they were. |
| LockService.Service.Lock | internal/lock/service.go:70-84 | On any servers: the local calls, and only if they succeed those of every endpoint, nothing else. Success means all slots were free and are held, by distinct clusters within the lease duration; on free, distinct slots and without errors it succeeds; with reliable servers a Lock that fails after its local lease keeps every slot that was free; a refused local lease leaves everything as it was. |
| LockService.Service.RemoteUnlock | internal/lock/service.go:218-263 | On any servers every endpoint is called once and nothing else is asked. With reliable servers every lease of the caller is gone, every lease of somebody else is as it was, and the call succeeds exactly when there was none; nothing else changes. |
| LockService.Service.Unlock | internal/lock/service.go:87-101 | On any servers: the local calls, and only if they succeed those of every endpoint. While the local lease is there nothing else is touched; with reliable servers every lease of somebody else stays, and unless the local one is foreign all of the caller's are gone; it succeeds exactly when none is foreign. |
| ApiTrace.NothingIsRolledBack | internal/lock/service.go:171-216 | Whatever the endpoints answer, the calls of a remote lock contain no Delete. |
| Refinement.LocalLockIsRun | internal/lock/service.go:104-154 | Every outcome of a LocalLock is reached by a timely run of its task in the protocol: same stores, same time, acquired exactly on success, nobody else moved. |
| Refinement.LockIsRun | internal/lock/service.go:70-84 | Every outcome of a whole Lock is reached by a timely run of its request: the stores and the time after its last call, granted exactly when every cluster said yes, failed otherwise with what was granted still there. |
| Refinement.LocalUnlockIsRun | internal/lock/service.go:157-169 | Every outcome of a LocalUnlock is reached by a run of its task in the protocol, a timely one while its own lease is live; a call refused because the lease is foreign ends without a Delete before it. |
| Handler.GetDisruptionTargetCondition | internal/webhooks/validation.go:322-330 | Finds the first condition that marks the pod as a disruption target, if there is one. |
| Handler.Webhook.Handle | internal/webhooks/validation.go:107-244 | On every outcome and field by field: when a lease is asked for at all; who is allowed, with a probe asked unless it is missing or switched off; one Lock, and one Unlock with the same arguments exactly when a granted Lock ends in a denial, no other API call; an allow keeps every lease; live leases of others stay; status codes, which dry-run drops without changing the answer. |
| Handler.Webhook.Guard | internal/webhooks/validation.go:204-243 | The part under the lock: allowed exactly if the Lock was granted, the budget agrees and an active probe agrees; a failed Lock is not followed by an Unlock; a denial gives every lease back when the servers are reliable; on any servers the API calls are those of one Lock and, after a denial under it, one Unlock. |
| Handler.Webhook.Deny | internal/webhooks/validation.go:270-320 | A denial unlocks exactly the given identity and lease, and only if there is a budget; with reliable servers the leases of others stay. |
| Converters.ConvertLabelSelectorToState | internal/converters/converters.go:38-59 | The loop maps every requirement in order. |
| Converters.ConvertLabelSelectorToMetaV1 | internal/converters/converters.go:9-20 | The loop maps every requirement in order. |
| Converters.RoundTrip | internal/converters/converters.go:9-59 | Sending a selector and converting it back gives the same selector field by field, up to nil versus empty. |
| Converters.ContentIsSelector | internal/converters/converters.go:9-59 | What is printed of a selector is the selector up to nil versus empty, no more and no less. |
| Converters.RoundTripFromWire | internal/converters/converters.go:22-36 | The other way round, requirements come back unchanged if and only if every key and operator was present. |
| Converters.LockKeysAgree | internal/state/server/server.go:151-155 | For any digest and any printer, the lease name computed by a remote server is the local one. |
| Converters.KeysDifferExactly | internal/lock/leases.go:57-61 | Two budgets have the same lease name whatever the hash if and only if they have the same namespace and print the same selector. |
| Converters.NameIsDigestPrefix | internal/lock/leases.go:61-65 | Two hashes give the same lease name if and only if they agree on the first 24 bytes of their digests. |
| LeaseNames.NamesAreValid | internal/lock/leases.go:57-66 | Every 24-byte prefix gives a name of 44 characters over a to z, 2 to 7 and the hyphen. |
| LeaseNames.NamesAreLossless | internal/lock/leases.go:62-65 | Two names are equal if and only if the prefixes are. |
| LeaseNames.NameIsNumber | internal/lock/leases.go:62-65 | After xpdb-, the name is the 24 bytes as one big-endian number, shifted by three bits and written in the digits a to z, 2 to 7 of base 32. |
| LeaseNames.HashInputIsUnambiguous | internal/lock/leases.go:58-61 | Writing namespace and printed selector without a separator lets no two pairs run together. |

## Left out

- Clock skew between clusters: all clusters and replicas read one clock.
- Different lease durations at the same time: all replicas create leases with one duration; only leases
  from earlier times may have others.
- Leases without a holder, a stamp or a duration: the stores hold complete leases, as the service writes.
- Changing scales: the run model keeps every cluster's expected count fixed; `Scale` resolves one snapshot.
- failurePolicy Ignore: an answer after the webhook timeout counts as a rejection, as the chart configures.
- Reuse of pod names: an eviction means the pod object it was asked for; deleted pods stay as tombstones.
- Ungoverned removals: decode failure, deletion already under way, disruption target, lost node, no or a
  suspended budget. In the run model they are losses outside the budget, excluded by `Admission.Assumed`.
- LockService.Service.Lock: asks the endpoints one after the other and lets nobody else in between;
  parallel calls and interleaving are in `LockProtocol`.
- Scale.FindExpectedScale: claims the sum only for coherent objects; `Scale.UidsMakeCoherent` derives that
  from UIDs identifying objects.
- Handler.Webhook.Handle: messages, events and metrics of the responses are not modelled.
- SHA-256 and UUIDs: any fixed digest of 32 bytes; identities are fresh. Collisions are not excluded.
- Label matching, printing of selectors and percentage parsing: library code; a fixed predicate, a fixed
  printer that does not tell nil from empty, and exact ceiling division.
- Pod readiness lookup, pre-activities and the probe: inputs of the handler.
- gRPC, TLS, certificate watching, client pools, flags, charts, generated code: no decisions of their own.
