# Runpool, verified

Runpool turns CI jobs a provider assigns into capsules on one host. This project models the
parts of it that are hardest to get right and proves what they promise, in Dafny 4.11. Nothing
here executes the controller; every statement is about the model in these files, and the table
below says which source lines each one models.

**The capacity allocator.** `Fairness` states what sharing means, twice: a loop that hands out
one credit at a time, and a condition without a loop that only one distribution satisfies.
`WaterFill`, `Levelling`, `GlobalLevelling`, `Planning`, `InstancePlanning` and `PlanBuilding`
are the batch computation: binary-searched water fill, per tier and then under a second,
instance-wide budget. Its contract is the loop's result; `Work` bounds what it costs. `Ledger`
has the allocator's state twice, as fields with running counters and as the view they stand
for. `Operations` says what each operation does to the view; `Allocator` is the class, with
counters, a cached plan and the poll protocol; `Bookkeeping`, `Enrolment` and `Holding` show
that the two keep in step. What the operations achieve is proved of the view: `Discovery` is
about the rotating credit, `PlanBounds` and `Admission` about budgets, `Announcing` about what
is announced and reserved remotely, `Withholding` about holds, `Demanding` about demand.
`Broker` adds the provider's side: capacity really in force, and announcements that may still
land. Its main theorem is about every run.

**Leases, credits and cleanup.** `Credits` is the interleaving of admission, owners and retry
passes. `Disposition` is one serving with crashes and failed cleanup passes. `Resources` has
the durable intents around daemon objects, with every crash point recorded. `Sweeps` is the
orphan sweep and the orphan pass of cache collection, with the rest of the system interfering
between any two steps.

**Smaller kernels.** `Fingerprint` (the delivery encoding), `Capacity` (the worst workload
set), `Egress` (the relay's decisions and the firewall rules), `DiskPressure` (the verdict and
the admission gate), `Migrations` (resumable schema changes).

Three findings about the code as it stands:

- A busy report from the provider binds the cleanup pass that heard it and every later pass that
  measured nothing (`Disposition.BusyIsKept`). A later pass that measures the capsule's account
  again, and does not hear that the runner is busy, displaces it
  (`Disposition.BusyCanBeDisplaced`). `Disposition.BusyBindsExactly` says exactly when.
- A pass that meets the end of the drain window records what it measured and asks nobody, and an
  ordinary ending asks nobody either. So an account of never having started that was true when it
  was taken can decide over a job that ran to an observed exit
  (`Disposition.AbandonedAccountDecides`). `Disposition.BegunIsRequeuedExactlyOn` has the exact
  condition, this way included.
- Relay and firewall agree on every reachable address exactly when the policy's entries cover
  link-local (`Egress.RelayAgreesWithKernel`). A policy passes validation without that
  (`Egress.ValidPoliciesMayDisagree`); every deny set `BuildDeny` composes has it.

How time, chance and the outside enter: what becomes of each call and each write is a parameter
or an event, and a write may fail after it landed. Interference in `Sweeps` is a
nondeterministic choice. A daemon's create, remove or start request takes
effect during the call or not at all. Row, lease and object identifiers are not used again.
Hashes are taken to be free of collisions, by working with the text that is hashed.
Transactions are atomic. Integers are unbounded except where the code's 64-bit arithmetic shows
(`Capacity`, `Fingerprint`).

A `hide` statement at the head of a proof names the definitions the proof can do without.

## Model

| member | source | states |
|---|---|---|
| `Fairness.LeastFilledIsFirst` | internal/allocator/plan_test.go:241-258 | the binding the credit-at-a-time loop picks comes before every other eligible one: least filled, earliest registered on a tie |
| `Fairness.GreedyIsFair` | internal/allocator/plan_test.go:195-269 | the credit-at-a-time loop ends in a distribution that never retracts work, grows only unheld bindings up to demand, fits both budgets, leaves nobody eligible, and gave no credit that another should have had first |
| `Fairness.FairIsUnique` | internal/allocator/plan.go:130-229 | no two distributions are fair, so fairness pins the result for every demand, tier layout and limit |
| `Fairness.Distribution` | internal/allocator/plan.go:74-103 | the promised shares: what the credit-at-a-time loop makes of running work, and it is fair |
| `Fairness.FairIsDistribution` | internal/allocator/plan.go:130-229 | anything shown fair is what the credit-at-a-time loop computes |
| `WaterFill.CreditsAtLevel` | internal/allocator/plan.go:333-348 | the credits needed to raise all candidates to a level, exactly, or more than the cut-off once it is passed |
| `WaterFill.FillLevel` | internal/allocator/plan.go:283-294 | the binary search finds the highest level the budget pays for, in logarithmically many looks |
| `WaterFill.ChooseLevel` | internal/allocator/plan.go:278-295 | the top level if the budget covers it, else the highest it pays for |
| `WaterFill.RaiseTo` | internal/allocator/plan.go:297-311 | the first pass writes each candidate's level between its floor and its ceiling and counts what it spends |
| `WaterFill.HandOut` | internal/allocator/plan.go:314-328 | the second pass gives one credit each above the level, in candidate order, while any is left |
| `WaterFill.WaterFill` | internal/allocator/plan.go:253-331 | the fill is the levelled one, spends exactly the smaller of budget and total headroom, and visits at most n(4+log2(span+1)) candidates, whatever the raw demand |
| `Work.LooksIsProduct` | internal/allocator/plan.go:253-254 | the visit bound is a product of the candidate count and a number of rounds |
| `Work.Log2UpIsLeast` | internal/allocator/plan.go:253-254 | the number of rounds is the logarithm rounded up |
| `Work.FewIsProduct` | internal/allocator/plan.go:253-254 | so is the bound the methods state |
| `Levelling.FilledIsLevelled` | internal/allocator/plan.go:231-251 | a water fill of candidates whose demand was clipped to the budget levels the tier itself: clipping changes nothing |
| `Levelling.LevelledIsTierFair` | internal/allocator/plan.go:117-128 | a levelled tier is shared fairly |
| `Levelling.FairFromTiers` | internal/allocator/plan.go:98-101 | with independent tiers, fair tiers make a fair instance |
| `Levelling.TierFairIsShare` | internal/allocator/plan.go:98-101 | a tier shared fairly on its own got exactly its part of the credit-at-a-time distribution |
| `Levelling.TierFairSpends` | internal/allocator/plan.go:117-128 | a tier shared fairly spends the smaller of its free credits and what its bindings still want |
| `Planning.AllocationCandidates` | internal/allocator/plan.go:231-251 | the unheld bindings that want more than they hold, in order, each once, with demand clipped to the budget; nobody is left out |
| `Planning.HighestCeiling` | internal/allocator/plan.go:350-358 | the largest ceiling of the candidates |
| `Planning.ApplyCapacities` | internal/allocator/plan.go:125-127 | writes the candidates' capacities and nothing else; the plan's three ways of telling stay in agreement |
| `Planning.SetReflects` | internal/allocator/plan.go:360-370 | one capacity set: per binding, per tier and in total the plan still says the same |
| `Planning.AllocateTier` | internal/allocator/plan.go:117-128 | one tier is shared fairly, spends the smaller of its free credits and what its bindings still want, moves no other tier, and visits at most n(4+log2(parallelism+1)) bindings |
| `GlobalLevelling.HandOutHandsOut` | internal/allocator/plan.go:210-227 | the remainder goes out in registration order, one credit each, to bindings standing at the level with room in both budgets; whoever was passed over met a full budget |
| `GlobalLevelling.HandOutStops` | internal/allocator/plan.go:211-214 | once the instance is full the hand-out stands where it is |
| `GlobalLevelling.HandedOutIsDistribution` | internal/allocator/plan.go:130-229 | tiers at one common level plus the hand-out are the credit-at-a-time distribution under both budgets |
| `InstancePlanning.CountCredits` | internal/allocator/plan.go:167-182 | the credits a common level costs, each tier within its own budget, exactly or more than the budget, looking at each candidate at most once |
| `InstancePlanning.InstanceLevel` | internal/allocator/plan.go:184-196 | the highest common level the instance's budget pays for, in logarithmically many looks at each candidate |
| `InstancePlanning.GatherTiers` | internal/allocator/plan.go:136-165 | the tiers that take part, each once, with their candidates and the range of levels; every other tier has nothing to share or nobody to share it with |
| `InstancePlanning.FillTiers` | internal/allocator/plan.go:198-208 | every participating tier rises to the level; the credits used and the room left per tier are exact |
| `InstancePlanning.HandOutRest` | internal/allocator/plan.go:210-227 | the loop over the registration order computes the hand-out, stopping early included |
| `InstancePlanning.DearLevelOverflows` | internal/allocator/plan.go:184-196 | a level that costs more than the budget cannot be reached by every tier |
| `InstancePlanning.AllocateGlobal` | internal/allocator/plan.go:130-229 | for every market with an instance limit the batch computation yields the credit-at-a-time distribution, independent of the order the pools are met in, and visits at most n(6+2log2(limit+1)) bindings, whatever the demand |
| `InstancePlanning.WorkAddsUp` | internal/allocator/benchmark_test.go:53-70 | one search over all tiers, one in each, and the hand-out add up to a logarithm of the limit per binding |
| `InstancePlanning.SizeWithinOrder` | internal/allocator/plan.go:136-162 | the tiers' candidates together are no more than the registered bindings |
| `PlanBuilding.Seed` | internal/allocator/plan.go:74-91 | running work of every binding, in every tier, and its total |
| `PlanBuilding.TotalForTier` | internal/allocator/plan.go:404-410 | the sum of a tier's capacities |
| `PlanBuilding.SetTierDiscovery` | internal/allocator/plan.go:372-385 | the tier's holder is named and, if silent and the tier has room, gets one credit; nothing else moves |
| `PlanBuilding.SetGlobalDiscovery` | internal/allocator/plan.go:387-402 | the instance's holder is named and funded out of both budgets; the plan is then the promised one |
| `PlanBuilding.BuildPlan` | internal/allocator/plan.go:74-103 | the built plan is the one the state promises, in either mode, under the given generation, within the work of its mode |
| `PlanBuilding.PlanWorkIsBounded` | internal/allocator/benchmark_test.go:53-70 | a whole plan, in either mode, visits at most n(7+2log2(most+1)) bindings where no budget exceeds `most`, whatever the demand |
| `PlanBounds.DesiredCoversWork` | internal/allocator/plan.go:74-103 | desired is at least what runs, exactly what runs for a held binding, and at most demand or one discovery credit |
| `PlanBounds.PlanKeepsBudgets` | internal/allocator/plan.go:360-410 | the total advertised is the sum; each tier's total is within its parallelism or what it already runs, the instance's within its limit or what already runs, discovery credit included |
| `PlanBounds.NamedExactly` | internal/allocator/plan.go:360-410 | the plan names exactly the holder of each ring, under its tier |
| `PlanBounds.PlanIsDetermined` | internal/allocator/plan.go:74-103 | two plans of one state differ at most in generation and visit count |
| `Allocation.Allocator.constructor` | internal/allocator/allocator.go:115-127 | a new allocator is empty, unheld, with no plan |
| `Allocation.Allocator.InvalidatePlan` | internal/allocator/plan.go:60-63 | drops the plan and opens a new generation, and touches nothing else |
| `Allocation.Allocator.CurrentPlan` | internal/allocator/plan.go:65-72 | the plan of the present state under the present generation; a published one is returned as it is |
| `Allocation.Allocator.Register` | internal/allocator/allocator.go:140-167 | refuses a conflicting parallelism or a known key and changes nothing then; otherwise appends the binding to both rings with nothing announced and an unknown session |
| `Allocation.Allocator.SetAssignedDemand` | internal/allocator/allocator.go:169-188 | records the demand, negative as none, and passes the credit on if the holder gained some |
| `Allocation.Allocator.Hold` | internal/allocator/allocator.go:190-225 | stamps every binding, and moves no ring; a thaw settles every ring, whatever calls that takes; see `Withholding` for what that withholds |
| `Allocation.Allocator.TryReserve` | internal/allocator/allocator.go:227-260 | grants exactly when the binding is known, unheld, and tier and instance both have an active credit left |
| `Allocation.Allocator.Adopt` | internal/allocator/allocator.go:262-296 | always counts a known binding's lease and says exactly whether a budget is now exceeded |
| `Allocation.Allocator.Release` | internal/allocator/allocator.go:298-309 | gives one active credit back, if there is one |
| `Allocation.Allocator.Active` | internal/allocator/allocator.go:311-319 | the binding's running count, zero if unknown |
| `Allocation.Allocator.ReservableCapacity` | internal/allocator/allocator.go:321-347 | the room both budgets leave the binding, zero if it is held or unknown; Admission.RoomIsClaims says what that number means |
| `Allocation.Allocator.SessionOpened` | internal/allocator/allocator.go:349-364 | capacity back to zero, predecessor accounted for, no input of a plan touched |
| `Allocation.Allocator.SessionClosed` | internal/allocator/allocator.go:366-387 | a confirmed close gives capacity back; an uncertain one keeps the most that may be in force and marks the session unknown |
| `Allocation.Allocator.ChangeRemoteCapacity` | internal/allocator/allocator.go:587-595 | one binding's remote capacity changes, the counters with it, no plan input and no plan |
| `Allocation.Allocator.SetRemoteKnown` | internal/allocator/allocator.go:597-611 | one binding's session becomes known or unknown, the counters with it |
| `Allocation.Allocator.RemoteStateKnown` | internal/allocator/allocator.go:544-553 | true exactly when no binding sharing the budget has an unaccounted predecessor |
| `Allocation.Allocator.ClampPublished` | internal/allocator/allocator.go:555-585 | as much of the desired capacity as the others' possible remote capacity leaves, tier and instance |
| `Allocation.Allocator.DiscoveryAnnouncement` | internal/allocator/allocator.go:624-643 | whether a non-zero announcement is the discovery credit's, and its ring's generation if so |
| `Allocation.Allocator.BeginPoll` | internal/allocator/allocator.go:389-420 | a known, idle binding gets a poll with a new number for the announcement, any other an invalid one; `Announcing.AnnouncementIsTheMost` says how much that is |
| `Allocation.Allocator.CompletePoll` | internal/allocator/allocator.go:422-445 | an answer to the pending poll settles what may be in force, any other is ignored; `Discovery.AnswerRotatesExactly` says when the credit passes on |
| `Allocation.Allocator.NextDiscovery` | internal/allocator/allocator.go:720-732 | the first qualifying place after the cursor, the cursor itself if nobody qualifies |
| `Allocation.Allocator.AdvanceDiscoveryFrom` | internal/allocator/allocator.go:645-689 | the credit leaves the holder only if it does not qualify and somebody does |
| `Allocation.Allocator.RotateInstance` | internal/allocator/allocator.go:691-704 | the instance's ring rotates only for the holder's poll of the present generation |
| `Allocation.Allocator.RotateTier` | internal/allocator/allocator.go:691-718 | so does a tier's |
| `Bookkeeping.PostRepresents` | internal/allocator/allocator.go:587-611 | one binding changed and every counter moved by the difference: all counters again equal the sums over bindings |
| `Bookkeeping.RebindKeepsBudgets` | internal/allocator/allocator.go:555-595 | capacity that may be in force remotely stays within every tier and the instance if a binding may hold no more than before, or no more than the others leave |
| `Bookkeeping.UnknownTallies` | internal/allocator/allocator.go:544-553 | the unknown counter is zero exactly when every session sharing the budget is known |
| `Bookkeeping.RemoteTallies` | internal/allocator/allocator.go:555-585 | what the counters leave is what the other bindings leave |
| `Bookkeeping.AnswerIsHonest` | internal/allocator/allocator.go:426-445 | a poll that answers the pending announcement carries its capacity |
| `Bookkeeping.TurnInOrder` | internal/allocator/allocator.go:664-718 | moving a cursor touches no counter and no budget |
| `Enrolment.EnrolledInOrder` | internal/allocator/allocator.go:144-167 | registration keeps counters, rings, registration order and remote budgets |
| `Holding.StampInOrder` | internal/allocator/allocator.go:195-206 | a hold touches every binding and no counter |
| `Holding.Thawed` | internal/allocator/allocator.go:207-224 | the thaw's calls together settle each ring once, in either mode |
| `Bookkeeping.PlanStands` | internal/allocator/plan.go:5-11 | sessions, polls and ring generations are no inputs of a plan: a plan stays right while its inputs are the same |
| `Bookkeeping.OneGenerationOnePlan` | internal/allocator/plan.go:60-72 | over any run, a plan made under a generation is right for as long as the generation lasts |
| `Discovery.NextQualifies` | internal/allocator/allocator.go:720-732 | if anybody qualifies, the next holder does |
| `Discovery.WorkPassesTheCredit` | internal/allocator/allocator.go:254-259 | work arriving at the holder leaves the credit on a qualifying binding if its ring has one |
| `Discovery.DemandPassesTheCredit` | internal/allocator/allocator.go:182-187 | so does demand arriving there |
| `Discovery.ThawPassesTheCredit` | internal/allocator/allocator.go:207-224 | so does a thaw, for every ring |
| `Discovery.EveryEventSteps` | internal/allocator/allocator.go:664-718 | whatever happens, a ring's generation never goes back and grows whenever the credit changes hands |
| `Discovery.EveryEventTurns` | internal/allocator/allocator.go:664-718 | whatever happens, a ring stays as it is or rotates once |
| `Discovery.GenerationsGrow` | internal/allocator/allocator.go:661-663 | over any run a ring's generation never goes back |
| `Discovery.StaleAnswerMovesNothing` | internal/allocator/allocator.go:426-445 | a superseded answer, or one of another generation, moves no credit |
| `Discovery.LateAnswerMovesNothing` | internal/allocator/allocator.go:39-43 | over any run, once the ring moved on, a poll's answer moves no credit, however late |
| `Discovery.AnswerRotatesExactly` | internal/allocator/allocator.go:426-445 | an answer rotates the holder's ring exactly if it is the holder's own, to a look of this generation, successful and empty; no other ring moves |
| `Discovery.EmptyAnswerPassesTheCredit` | internal/allocator/allocator.go:691-732 | such an answer opens a generation, and the credit goes to another binding whenever another qualifies |
| `Discovery.OtherAnswersMoveNothing` | internal/allocator/allocator.go:441-444 | an answer that failed, found work, or was to no look moves no ring |
| `Discovery.LookPassesTheCredit` | internal/allocator/allocator.go:389-445 | a whole look, from announcement to empty answer, passes the credit on and leaves nothing else behind |
| `Discovery.OtherPollsMoveNothing` | internal/allocator/allocator.go:624-647 | a poll of anybody but the silent holder moves no ring, however answered |
| `Discovery.OthersMoveNothing` | internal/allocator/allocator.go:664-689 | demand or work of anybody but the holder, demand that went away and a hold move no ring |
| `Discovery.EveryoneInTurn` | internal/allocator/allocator.go:691-732 | from a holder that qualifies, as many rotations as bindings qualify visit each of them exactly once and end where they began |
| `Discovery.GenerationsAreRotations` | internal/allocator/allocator.go:691-732 | over any stretch of any run in which the same bindings qualify, a ring is as many rotations on as its generation |
| `Discovery.CycleServesEveryone` | internal/allocator/allocator.go:691-732 | over such a stretch one cycle long the credit comes back; everybody who qualifies held it, nobody else did, and nobody in two generations |
| `Discovery.GenerationsCountAnswers` | internal/allocator/allocator.go:426-445 | over any stretch of any run in which the same bindings qualify, the generation counts exactly the answers that passed the credit on |
| `Discovery.EmptyAnswersServeEveryone` | internal/allocator/allocator.go:691-732 | as many such answers as bindings qualify give every one of them the credit |
| `Broker.EveryEventInv` | internal/allocator/allocator.go:349-445 | every event keeps what may come to be in force at the broker within the budgets |
| `Broker.BrokerWithinBudgets` | internal/allocator/allocator.go:349-445 | over every run that registers first and inherits capacity within the budgets, capacity really in force fits each tier's parallelism and the instance's limit, through failed polls, late landings, uncertain closes and reopened sessions |
| `Broker.RunInv` | internal/allocator/allocator.go:349-445 | at every moment of such a run a bound on what may come into force is known and fits |
| `Broker.RaiseFits` | internal/allocator/allocator.go:555-585 | an announcement made when all sessions of a budget are known leaves room for itself, whatever is still on its way |
| `Announcing.AnnouncementIsTheMost` | internal/allocator/allocator.go:558-585 | with every session known, an announcement is the most of the plan's share that fits: it fits, and every larger part of the share does not |
| `Announcing.AloneAnnouncesAll` | internal/allocator/allocator.go:558-585 | with nobody else announcing, the whole share is announced |
| `Announcing.CreditIsAnnounced` | internal/allocator/allocator.go:624-647 | the holder of an idle credit announces it, as a look of its ring's generation |
| `Announcing.TurnOfTheCredit` | internal/allocator/allocator.go:389-445 | the holder's whole turn, from the plan to the next holder |
| `Announcing.KnownExactly` | internal/allocator/allocator.go:349-385 | over every run, a session is known exactly if it was opened or surely closed, and not uncertainly closed since |
| `Announcing.AllKnownExactly` | internal/allocator/allocator.go:547-556 | announcements wait for exactly the sessions of their own budget |
| `Announcing.ReservedForAReason` | internal/allocator/allocator.go:349-445 | over every run, what is reserved for a binding was confirmed by the provider or may still land, so credits given back are given back |
| `Broker.RegisteringIsFresh` | internal/allocator/allocator.go:144-167 | an allocator that has only been registered with has announced nothing |
| `Admission.EventKeepsWithin` | internal/allocator/allocator.go:227-260 | no event but an adoption takes a tier or the instance over its budget |
| `Admission.RunWithin` | internal/allocator/allocator.go:227-260 | over every run without adoptions no tier and no instance runs more than its budget |
| `Admission.RoomIsClaims` | internal/allocator/allocator.go:321-347 | the reservable capacity is exactly how many claims in a row are granted |
| `Admission.RefusedExactly` | internal/allocator/allocator.go:231-260 | a claim is refused exactly if granting it would exceed a budget |
| `Admission.ReleaseMakesRoom` | internal/allocator/allocator.go:298-309 | a release makes room for one more claim in its tier |
| `Admission.ReleaseUndoesStart` | internal/allocator/allocator.go:231-309 | a release gives back what a claim took, and no more |
| `Withholding.HoldWithholds` | internal/allocator/allocator.go:190-239 | a hold grants no claim and asks for exactly the running work, of every binding |
| `Withholding.HoldCoversNewcomers` | internal/allocator/allocator_test.go:829-857 | so for a binding registered while it lasts |
| `Withholding.HoldHolds` | internal/allocator/allocator.go:190-239 | over any run, from a hold to the next thaw no claim is granted and no announcement exceeds what runs |
| `Withholding.ThawAdmits` | internal/allocator/allocator.go:190-260 | after a thaw the two budgets alone decide over a claim |
| `Demanding.DemandBecomesShare` | internal/allocator/allocator.go:170-189 | demand within the share and the idle credits becomes the share, and nobody else's moves |
| `Demanding.IdleCreditIsLent` | internal/allocator/plan.go:360-410 | a silent holder is lent a credit exactly if one is idle in both budgets |
| `Demanding.NewcomerDisturbsNobody` | internal/allocator/allocator.go:140-167 | a registration leaves every share as it was |
| `Admission.LoadIsAll` | internal/doctor/capacity.go:116-133 | the load the capacity check is about counts everything that runs |
| `Admission.ReservationsFitTheHost` | internal/doctor/capacity.go:68-108 | on a host that passed the check, every load reachable by reservations fits with the reserve on top, and that load is all work that runs |
| `Capacity.GreedyIsWorst` | internal/doctor/capacity.go:140-159 | no workload set within the tier counts and the limit needs more than taking the most expensive first |
| `Capacity.GreedyIsReached` | internal/doctor/capacity.go:140-159 | and one of them needs exactly that |
| `Capacity.SumLargest` | internal/doctor/capacity.go:140-159 | the exact worst need over all workload sets, cut off at the largest 64-bit integer |
| `Capacity.SaturatingAdd` | internal/doctor/capacity.go:161-166 | the sum, cut off at the largest 64-bit integer |
| `Capacity.CapacityRequirement` | internal/doctor/capacity.go:116-133 | the worst need of one resource over every load admission can let in |
| `Capacity.PhysicalCapacity` | internal/doctor/capacity.go:81-108 | passes exactly when every admissible load with the reserve fits in every resource, and swap is known where any is needed; then memory, swap and processors suffice for each |
| `Capacity.HousesExactly` | internal/doctor/capacity.go:68-108 | fitting in every resource is having the memory, the swap and the processors for every admissible load and the reserve |
| `LeaseMachine.MovedToCleaning` | internal/lease/lease.go:111-137 | every live state can be moved to cleaning, a released lease cannot |
| `LeaseMachine.Gates` | internal/store/lease.go:31-45 | released and quarantined are entered from cleaning only, each launch state from the one before it, failed from every state that sets up or runs; released alone is terminal |
| `LeaseMachine.ReleasedThroughCleaning` | internal/store/lease.go:31-45 | every path to released passes through cleaning right before, and ends there |
| `LeaseMachine.RunningWasLaunched` | internal/store/lease.go:31-45 | a reserved lease whose workload runs was provisioned and registered first |
| `LeaseMachine.EveryLeaseCanEnd` | internal/store/lease.go:31-45 | from every live state a path leads to released |
| `Credits.CreditsAreConserved` | internal/app/reconcile.go:582-654 | in every interleaving of admission, owners, failures and retry passes over stale lists, a lease gives its credit back at most once, only after release; the active count is exactly the reservations and unpaid leases, and live leases never outnumber it |
| `Credits.FinishedLeaseReturnsItsCredit` | internal/app/runtime.go:380-420 | from any moment of any run, a lease driven to released can get its credit back, once |
| `Credits.StrandedLeaseReturnsItsCredit` | internal/app/reconcile.go:582-654 | so can a live lease nobody drives, whatever state it was left in |
| `Credits.RunInv` | internal/app/reconcile.go:582-654 | the invariant of all interleavings: who may still pay a credit, and for which row |
| `Credits.CommittedKeeps` | internal/app/scheduler.go:75-105 | so does a commit, which hands the reserved credit to the lease |
| `Credits.CleaningKeeps` | internal/lease/lease.go:111-137 | a move to cleaning keeps every lease's account: a released lease is left with nobody who may pay |
| `Credits.PaidKeeps` | internal/app/runtime.go:380-420 | so does a payment: only an owner that read the row released pays, and nobody is left who may pay again |
| `Credits.LateClaimPaysTwice` | internal/app/reconcile.go:606-618 | without the grace period a pass and the admission can both give the same credit back |
| `Disposition.AtMostOnce` | internal/lease/lease.go:290-343 | over every run with crashes and failed passes, an attempt whose runner began is put back in the queue only on the capsule's own account, by a pass that heard no busy runner |
| `Disposition.FinalizedExactly` | internal/lease/lease.go:290-375 | what the finalizing transaction leaves: back in the queue exactly on a proof or with no start authorized, while the budget lasts; settled as completed or started exactly on what was seen; otherwise held for review |
| `Disposition.BegunIsReadyExactlyOn` | internal/lease/lease.go:290-375 | an attempt whose runner began is back in the queue if and only if some pass recorded the capsule's account unopposed and none after it recorded anything else, and the budget lasts |
| `Disposition.TakenIsLeft` | internal/lease/lease.go:263-287 | an attempt somebody else took is left as it is |
| `Disposition.BegunRulings` | internal/lease/lease.go:315-343 | the ruling that requeues begun work rests on the capsule's own account, unopposed |
| `Disposition.BegunIsRequeuedExactlyOn` | internal/lease/lease.go:315-343 | from any moment at which the capsule's account is not on record: begun work is requeued if and only if some later pass recorded that account, measured by itself and not contradicted, and no pass after it recorded anything else |
| `Disposition.DaemonsWordIsSafe` | internal/lease/lease.go:290-323 | the daemon's never-started and the evidence never requeue work that began |
| `Disposition.AccountStands` | internal/lease/lease.go:306-323 | an account that establishes something stays recorded over any stretch of any run in which passes measure nothing |
| `Disposition.RecordedExactly` | internal/lease/lease.go:478-492 | exactly when the capsule's account is on record |
| `Disposition.ProofSurvives` | internal/lease/lease.go:306-323 | over any stretch of any run, crashes in mid-pass and failed removals and finalizations included, a recorded never-started proof stays recorded and still requeues while passes measure nothing |
| `Disposition.BusyIsKept` | internal/app/runtime.go:598-672 | over any such stretch after a busy report was recorded, begun work is not requeued |
| `Disposition.BusyBindsExactly` | internal/app/runtime.go:598-672 | after a busy report, begun work is requeued if and only if a later pass measured the capsule's account again and did not hear busy, and no pass after that one heard busy or measured another account |
| `Disposition.BusyCanBeDisplaced` | internal/app/runtime.go:598-672 | a run from the launch on in which a busy report is recorded and begun work is requeued all the same |
| `Disposition.AbandonedAccountDecides` | internal/app/runtime.go:459-477 | a run from the launch on in which the work began, its exit was observed, no pass asked the provider, and the job is requeued |
| `Disposition.EventKeepsInv` | internal/app/runtime.go:249-301 | each step of launch and cleanup keeps the record honest: no start without a durable authorization, no never-started proof once the start took effect |
| `Disposition.RecordEvidence` | internal/store/evidence.go:141-206 | evidence only moves forward; a backward write is refused |
| `Resources.ReleasedOwnsNothing` | internal/lease/lease.go:167-193 | no object of a released lease remains |
| `Resources.Host.Plan` | internal/store/leasetx.go:366-375 | an intent is committed under a new id, or nothing changes |
| `Resources.Host.constructor` | internal/store/lease.go:36-56 | a host whose leases have nothing yet |
| `Resources.Host.Create` | internal/capsule/capsule.go:166-217 | at every crash point every object of a lease is found by one of its intents that had said so beforehand; success is exactly: both transactions and the confirmation commit, no such intent was there, and the object was made or is the lease's own |
| `Resources.Host.DaemonCreate` | internal/capsule/capsule.go:171-217 | a create that answers with an id made that object, labelled for the lease, and nothing else |
| `Resources.Host.Resolve` | internal/capsule/capsule.go:171-217 | a name is taken for the lease's own object only if the object carries its label |
| `Resources.Host.CreateOrAdopt` | internal/capsule/capsule.go:171-217 | an answer names the intent's own object; there is one exactly if a free name was taken, or a taken one is proven to be the lease's |
| `Resources.Host.RemoveIntent` | internal/lease/lease.go:533-554 | an intent goes only once nothing it leads to is left, and nothing goes before the row says so; it goes exactly if every call is answered well and its handle is nobody else's |
| `Resources.Host.InOrder` | internal/lease/lease.go:516-526 | a lease's intents, each once, containers first |
| `Resources.Host.RemoveResources` | internal/lease/lease.go:494-531 | at every crash point a network or volume of the lease is gone only if no container intent is left; it succeeds exactly if every call is answered well and no handle is somebody else's, and then leaves no intent |
| `Resources.Host.Finalize` | internal/lease/lease.go:160-193 | commits released exactly from cleaning with no intent left, and then no object of the lease remains |
| `Resources.ForgetIsSafe` | internal/store/leasetx.go:415-420 | a row may be forgotten only when nothing it leads to is left |
| `Sweeps.Host.SweepOrphans` | internal/app/reconcile.go:397-486 | with anything happening between its steps, the sweep asks for nothing exempt and nothing of a live lease to be removed; a sweep that ends without a wedged object leaves no orphan of the start, and one that meets no failure so ends |
| `Sweeps.Host.SweepKind` | internal/app/reconcile.go:431-480 | only listed objects that are not spared are removed; it stops exactly at a removed object the books cannot be written for, and counts the others that stayed |
| `Sweeps.Host.CollectOrphans` | internal/cache/gc.go:68-121 | only lane volumes without a live row are removed; without failures no orphaned lane volume of the start is left |
| `Sweeps.Host.Orphaned` | internal/cache/gc.go:106-121 | exactly the listed lane volumes no row accounts for |
| `Sweeps.Host.DeleteLane` | internal/cache/cache.go:123-141 | the row goes before the volume, so no live lane's volume is removed; busy exactly if leased or unknown; evicted exactly if both steps succeed, and then both are gone |
| `Fingerprint.SamePreimage` | internal/assignment/assignment.go:155-189 | two deliveries have the same preimage exactly when they are the same multiset of assignments with labels as multisets |
| `Fingerprint.RecordDecodes` | internal/assignment/assignment.go:157-174 | two records are equal exactly when the assignments say the same up to label order |
| `Fingerprint.PrefixedAllDecodes` | internal/assignment/assignment.go:186-189 | a run of length-prefixed strings can be read back in one way only |
| `Fingerprint.SortForgetsOrder` | internal/assignment/assignment.go:160-161 | sorting forgets order and nothing else |
| `Fingerprint.SortedIsUnique` | internal/assignment/assignment.go:175 | two sorted lists of the same strings are the same list |
| `Fingerprint.LeMeans` | internal/assignment/assignment.go:155-189 | the sorting order: a prefix, or smaller at the first difference |
| `Fingerprint.U64Injective` | internal/assignment/assignment.go:168-170 | eight big-endian bytes determine the 64-bit number |
| `Fingerprint.SortAll` | internal/assignment/assignment.go:175 | whatever way the list is sorted, the result is the same |
| `Fingerprint.EncodeRecord` | internal/assignment/assignment.go:159-173 | the record built in the loop is the specified one |
| `Fingerprint.AppendPrefixed` | internal/assignment/assignment.go:186-189 | the loop appends the length-prefixed strings |
| `Fingerprint.CanonicalPreimage` | internal/assignment/assignment.go:157-184 | the bytes built in the loops are the specified preimage |
| `Egress.RelayAgreesWithKernel` | internal/egress/egress.go:163-182 | relay and rendered OUTPUT chain agree on every reachable address exactly when the policy speaks for all of link-local |
| `Egress.ValidPoliciesMayDisagree` | internal/egress/egress.go:163-182 | a policy that passes validation and an address on which the two disagree |
| `Egress.KernelDecides` | internal/egress/egress.go:366-390 | first match over the rendered chain: loopback and established pass, then allow, then deny, then accept |
| `Egress.RenderOutput` | internal/egress/egress.go:382-390 | the loops render the specified chain |
| `Egress.RefusedExactly` | internal/egress/egress.go:224-242 | an allow entry is refused outright exactly when none of its addresses can be reached |
| `Egress.WidensExactly` | internal/egress/egress.go:337-351 | the widening rule refuses exactly the entries that contain a withheld range and more |
| `Egress.ReopensExactly` | internal/egress/egress.go:252-261 | the link-local rule refuses exactly the entries that meet it and have two addresses |
| `Egress.AllowsLieInside` | internal/egress/egress.go:55-117 | a valid allow entry that meets a withheld range lies inside it |
| `Egress.LinkLocalOneByOne` | internal/egress/egress.go:244-261 | a valid allow entry that meets link-local is one address |
| `Egress.AllowsTakeEffect` | internal/egress/egress.go:55-117 | every valid allow entry reaches some address |
| `Egress.FormsDoNotMatter` | internal/egress/egress.go:163-182 | an address in the IPv6 form is decided like its IPv4 address; IPv6 is refused |
| `Egress.MeetIsNested` | internal/egress/egress.go:340-351 | prefixes that meet are nested |
| `Egress.Compile` | internal/egress/egress.go:125-147 | compiles exactly the valid policies, completely |
| `Egress.PolicyDecides` | internal/egress/egress.go:122-182 | a compiled policy decides by its entries |
| `Egress.BuildDeny` | internal/egress/egress.go:288-323 | the baseline first, then exactly the other IPv4 subnets, each once; link-local is always covered; no withheld address passes relay or firewall without an allow entry |
| `Egress.BaselineMeans` | internal/egress/egress.go:273-286 | the baseline covers exactly the private, carrier, loopback, link-local, benchmark, multicast and reserved addresses, in plain arithmetic |
| `Egress.AllowedExactly` | internal/egress/egress.go:288-323 | with a composed deny set, a reachable address passes exactly if allowed by name, or neither withheld nor in a subnet of uplink, host or daemon |
| `DiskPressure.EmergencyExactly` | internal/disk/disk.go:117-162 | a measurement gives an emergency exactly when a floor is missed, or one is in force and not cleared by the bands in bytes and known inodes |
| `DiskPressure.LevelExactly` | internal/disk/disk.go:117-162 | each level's exact condition, with the floors, the bands and both watermarks in plain numbers |
| `DiskPressure.NoFlapping` | internal/disk/disk.go:137-150 | an emergency outlasts every measurement within the bands |
| `DiskPressure.Monitor.constructor` | internal/app/monitor.go:86-96 | a new process is closed, whatever the store says |
| `DiskPressure.Monitor.Resume` | internal/app/monitor.go:115-144 | only a persisted closed verdict is restored; the gate stays closed |
| `DiskPressure.Monitor.Apply` | internal/app/monitor.go:224-227 | the gate follows the level, and opens only on a measured and persisted open verdict |
| `DiskPressure.Monitor.Persist` | internal/app/monitor.go:229-247 | a write lands or not, whatever it answers; an open gate never meets a persisted closed verdict |
| `DiskPressure.Monitor.Pass` | internal/app/monitor.go:162-227 | at every moment an open gate rests on a measured and persisted open verdict; an emergency, in force or persisted, ends only on a clearing measurement; a closing verdict always takes effect; what is persisted is exactly the verdict unless the write fails |
| `DiskPressure.Serve` | internal/app/monitor.go:100-160 | the same over a whole process with failed probes and writes, at every moment it may die |
| `DiskPressure.Restarts` | internal/app/monitor.go:115-144 | and over any number of processes: a persisted emergency is gone only if some pass measured it cleared |
| `Migrations.IdentityDecodes` | internal/store/migrate.go:89-109 | the hashed text is equal exactly for equal migrations, names and bodies |
| `Migrations.PaddedReads` | internal/store/migrate.go:102-109 | a version is written in at least six digits and reads back as itself |
| `Migrations.SchemaFingerprint` | internal/store/migrate.go:102-109 | the loop computes that text |
| `Migrations.Store.ApplyScript` | internal/store/migrate.go:235-257 | script, version and identity commit together or not at all, and a commit that landed may be reported as failed |
| `Migrations.Store.ApplyPending` | internal/store/migrate.go:185-197 | every crash point on the way is a prefix of this build's migrations with its identity on record |
| `Migrations.Store.ApplyMigrations` | internal/store/migrate.go:141-197 | the outcome is determined: unreadable fails, newer and altered schemas are refused untouched, and otherwise it opens exactly if every commit is answered; what is applied is this build's scripts up to the first failure; every crash point has its identity on record |
| `Migrations.Store.Opens` | internal/store/migrate.go:141-197 | over any sequence of opens by any builds the applied scripts only grow and every crash point has its identity on record; however often one build's opens failed, its next that meets no failure leaves its migrations |

## Left out

- Aliasing of pools and bindings: the allocator's pools and bindings are shared by reference in the source and are values in maps here, so two names for one pool are not modelled. The mutex becomes atomic methods.
- Allocation.Allocator.Register: requires a key that is new to every tier or belongs to this one; the code itself refuses repeats within one tier only. Keys are made of the target's and the tier's names (internal/app/bindings.go:227), so a key of another tier does not come up.
- Allocation.Allocator.CompletePoll: requires a poll that this allocator issued; the source keeps the fields private to the same end. Wrap-around of 64-bit poll numbers and generations is not modelled.
- Broker.BrokerWithinBudgets: takes the broker as the code does: opening a session or a confirmed close ends whatever was in force or on its way for the binding, and a successful answer settles its earlier announcements. Bindings are registered before the run.
- Migrations.IdentityDecodes: requires migration names without a zero byte, as file names are.
- Fingerprint.SamePreimage: requires strings and lists shorter than 2^64, which the 8-byte lengths need.
- Credits.CreditsAreConserved: assumes that admission claims a lease it committed before a retry pass may call it stranded; `Credits.LateClaimPaysTwice` shows why. Unfinished work is abandoned only after the retry passes are over, as the serve loop orders it. A read of the row that keeps failing leaves the credit held.
- Resources.Host.RemoveIntent: does not model retries and backoff booked on an intent.
- Sweeps.Host.SweepOrphans: does not model forgetting the intent of a swept object.
- Capacity.PhysicalCapacity: requires tiers with at least one credit each and host figures below the largest 64-bit integer, as configuration and hardware give them.
- Egress.RenderOutput: renders rules as values, not as text, and only the OUTPUT chain.
- DiskPressure.Monitor.Pass: does not model the collection pass a level obliges, nor overflow in the watermark products.
- Migrations.Store.ApplyMigrations: does not model the backup taken before the first pending script.
- Report documents (PoolReport, CapacityReport), configuration and credential checks, clients of Docker, GitHub and SQLite, the relay and its DNS, the capsule supervisor, the network sandbox's refresh and the eviction policy of cache collection: they would add easy members or an environment without a hard property.
- The delimiter-separated fingerprint format, kept in the source for old rows, is not modelled.
- Progress: that a stranded lease is eventually resolved, or a silent binding eventually served, is not stated; `Credits.StrandedLeaseReturnsItsCredit` says that it can be, and `Discovery.EmptyAnswersServeEveryone` what brings it about.
