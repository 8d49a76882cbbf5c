# Codis: resharding, routing and the proxy's data path

Codis reshards a live Redis cluster. A dashboard drives multi-step protocols over a durable store
and over many proxies; each proxy routes 1024 slots to Redis servers. This project models the
parts on which the safety of a running migration rests, and proves what they promise, for every
input, every interleaving and every reachable state.

**Control plane.** `Protocol` is a transition system over the store, the routes each registered
proxy holds and the running migration executors. One step is one effect: a store write, one slot
of one proxy filled, an executor starting or ending. A failed call that had no effect is no step; a
failed call that had one is. `Routing` and `Integrity` prove the invariants of all its runs, and
`Service` says when a slot is served and from where. `Topom` is the dashboard itself, a class with the store, the lazily refilled cache of
`Cache`, the queue of dirty hooks and a ghost record of every world it has been in; being valid
means that the record is a run of the protocol and that the cache is coherent. The operations in
`TopomSlots`, `TopomGroup`, `TopomProxy` and `TopomRebalance` change cached records in place, call
proxies one by one and write the store, and any of these may fail, with or without an effect; failed
calls are counted, so that an operation fails only if one of them did.
`Dashboard` puts arbitrary sequences of them together, and `Scheduler` and `SlotWorker` are the
loops that pick and work on slot actions.

**Rebalancing.** `Rebalance` and `RebalancePlan` are the greedy balancer for any number of slots,
with the tree of `GroupTree`, whose comparator reads the counters that the loop changes;
`RebalanceGoals` states what a good plan is, and that none is smaller.

**Data path.** `Migration` is the source and the target of one migrating slot, with requests that
proxies have let in, the worker's walk over the databases, background moves of tags and refills.
`MigrationSafety` proves what every run keeps and when clients see one map, `MigrationTags` that they
do as long as tags stay whole, `MigrationLimits` exactly which commands are safe, with runs that
go wrong for all others, and `MigrationRequests` that every request is executed once or fails.
`MigrationRoutes` shows that every step of the control plane is a step of the migration,
`MigrationGate` that the fills the proxies acknowledge are, and `SlotWorker` is the worker that
empties the source, step by step in the same model. `SlotGate` is the lock and the wait group in
front of a slot, `ConnPool` and `Router` the counted connections behind it, `BackendConn` the
pipeline of one connection, and `BackendOrder` its order and progress.

**Fast forms.** `HotKeyCache` is the LRU cache with version tokens, compared with a history that
forgets nothing but what was invalidated; `Crc32` the table-driven checksum that decides slots,
compared with bit-at-a-time division; `AofScan` the scan for timestamp annotations in pieces,
compared with the whole file.

Store, proxy and Redis calls are nondeterministic. Of Redis the model assumes only this: moving the
keys of a tag is atomic and takes all of them, the migration command reports how many keys of
the slot are left in a database, the key-space listing names at least the databases that have keys,
and the exec-wrapper either runs the command on the source, or finds the key absent or busy there.
A fill whose call has returned an error is not applied later, a request answered with a connection
failure is not executed later, and a proxy process starts with empty routes. During a migration, the
target starts without keys of the slot, a command reads and writes only the keys it names, and clients
name only keys of the hash key's tag. When the source group changes its master between two rounds of
the worker, the promoted replica holds the keys of the old master.

Three promises do not hold as they are written down; each has a failing run and its exact condition.

- A migrating slot is to answer as if nothing were going on. The exec-wrapper of the semi-async method
  looks up the hash key alone, so a command on several keys of a tag can miss those still on the source:
  `MigrationLimits.UnionStoreMisses`. `WrapperExactInRuns` and `CommandsExact` say exactly when it does not.
- Both methods skip migrate-first for the empty hash key, and the key can be missed:
  `MigrationLimits.EmptyKeyMisses`, with `TagMovesExact` for the exact condition.
- The timestamp scan is documented to return the range of all annotations. It uses zero for "none
  yet": `AofScan.RangeCanBeWrong`, with `AofScan.ScanExact` for the exact condition.

The version check of the hot-key cache and the insert after it are taken as one step, and so are the
version of an invalidation, which advances before the mutex is taken, and the removal of the entries.

## Model

| member | source | states |
|---|---|---|
| `Routing.RoutingAgreement` | pkg/topom/context.go:66-113 | in every state of every run of the protocol, two registered proxies that both serve a slot send it to the same address |
| `Routing.AuthorityChangesOnlyLocked` | pkg/topom/topom_slots.go:242-356 | a step that changes the server a slot belongs to finds every registered proxy not serving the slot, and changes no route |
| `Routing.NextKeeps` | pkg/topom/topom_proxy.go:157-181 | every store write, single-slot fill, proxy join, restart or removal and executor start or end keeps: serving implies the route named by the stored state, integrity, and current masters for running migrations |
| `Routing.RunsKeepInv` | pkg/topom/topom_group.go:205-350 | that invariant holds in every state of every run, with any call failing at any point |
| `Routing.MigrationExcludesPromotion` | pkg/topom/topom_slots.go:371-391 | while a migration runs, neither of its groups is in any promoting state, and the masters it captured are still the masters |
| `Routing.ViewRouteOk` | pkg/topom/context.go:84-113 | a fill computed from the stored state, or from the state about to be written, is locked, empty, or right for the stored state |
| `Service.RouteServes` | pkg/topom/context.go:66-113 | the route of a slot is unlocked if and only if the action is not prepared and neither the group in charge nor, while migrating, the source group is being swapped; it leads to the first server of the group in charge, and names the first server of the source exactly while prepared or migrating |
| `Service.HolderServes` | pkg/topom/context.go:84-113 | in every reachable world, a proxy that holds the prescribed route serves the slot if and only if it may be served and has a group |
| `Service.AckedGroupServes` | pkg/topom/topom_proxy.go:157-181 | when every proxy has acknowledged the slots of a group, all of them serve every such slot that may be served, from the first server of the group in charge |
| `Integrity.EdgeKeepsIntegrity` | pkg/topom/topom_group.go:104-203 | every edge of the slot and group state machines keeps referential integrity |
| `Integrity.ReachableStoresHaveIntegrity` | pkg/topom/topom_slots.go:461-509 | in every reachable store, overrides by slots-assign included: group ids of slots name groups with a server, addresses are distinct over all groups, no action exactly when no target, promoting index strictly inside the server list while preparing or prepared, action indices distinct |
| `Integrity.DelServerKeeps` | pkg/topom/topom_group.go:150-203 | removing a server keeps every slot served and every address unique |
| `Integrity.PromoteKeeps` | pkg/topom/topom_group.go:273-323 | each promotion phase keeps integrity |
| `Context.PromotePermutes` | pkg/topom/topom_group.go:293-301 | the reordered list holds the same servers |
| `Context.PromoteOrder` | pkg/topom/topom_group.go:293-301 | the promoted server comes first, the old master last, the others keep their order |
| `Context.MaxSlotActionIndex` | pkg/topom/context.go:57-64 | at least every index in use, and one of them or zero |
| `Dashboard.ServeAll` | pkg/topom/topom_slots.go:19-459 | after every effect of every operation of every sequence of requests with any failures: the proxies agree, the store is intact, running migrations hold current masters |
| `Dashboard.Serve` | pkg/topom/topom_slots.go:19-186 | each request does exactly what it is for, or is refused for one of its stated reasons, or fails because the dashboard is out of service or a call failed meanwhile; in all cases it extends the recorded run by legal steps only, and leaves other slots' migrations and executors as they are |
| `Dashboard.ServeMany` | pkg/topom/topom_action.go:77-104 | requests that leave the worker of a slot alone leave its executors and the record of its migration as they are |
| `Dashboard.InvAgrees` | pkg/topom/context.go:84-113 | the routing invariant implies that serving proxies agree |
| `Dashboard.PlanOne` | pkg/topom/topom_action.go:40-48 | one pick is the scheduler's choice for the stored slots, keeps the plan disjoint and adds one slot |
| `Dashboard.PlanRound` | pkg/topom/topom_action.go:17-51 | the slots of a round number at most max(1, parallel) and share no non-zero source or target group, with any sequences of other requests served in between; a round that ends short leaves no action to work on that does not share a group with a chosen one |
| `Topom.Topom.NewContext` | pkg/topom/topom.go:283-305 | when it succeeds, cached slots, groups and proxies equal the store's, whatever was changed in place, failed or half refilled before |
| `Topom.Topom.RunHooks` | pkg/topom/topom_cache.go:65-69 | running the queued hooks leaves only records that are nil or equal to the store's |
| `Topom.Topom.RefillSlots` | pkg/topom/topom_cache.go:109-128 | a refill that fails half-way still leaves nil or current records; one that succeeds leaves no nil |
| `Topom.Topom.RefillGroups` | pkg/topom/topom_cache.go:130-149 | as for slots, for groups |
| `Topom.Topom.RefillProxies` | pkg/topom/topom_cache.go:151-170 | as for slots, for proxies |
| `Cache.RunHookCoherent` | pkg/topom/topom_cache.go:12-34 | dropping what a hook names keeps the rule "nil, current, or about to be dropped" |
| `Cache.NoNilIsExact` | pkg/topom/topom_cache.go:65-107 | a loaded cache without nil records and without hooks equals the store |
| `Topom.Topom.Write` | pkg/topom/topom_cache.go:214-275 | a store write takes effect or not; when it reports success it did |
| `Topom.Topom.FanOut` | pkg/topom/topom_proxy.go:157-181 | a fan-out that reports success left every given proxy holding the computed route for every given slot; a failed one may have reached any subset |
| `Topom.Topom.ResyncSlotMappings` | pkg/topom/topom_proxy.go:157-181 | success means that every registered proxy holds the computed routes |
| `Topom.Topom.TakeOver` | pkg/topom/topom.go:197-271 | a new dashboard over whatever store and proxies any run of earlier dashboards left behind is valid, its cache empty |
| `Topom.Topom.Restart` | pkg/topom/topom.go:197-271 | the process may end and start again at any time: executors, cache and hooks are gone, store and routes stay, and the run goes on |
| `Topom.Topom.Reload` | pkg/topom/topom.go:432-441 | success leaves every cached record to be read again before the next operation |
| `TopomSlots.SlotCreateAction` | pkg/topom/topom_slots.go:19-51 | refuses exactly when the slot or group is missing, the group is empty, an action is there or the slot is already home; otherwise one pending action with the next index, or no change |
| `TopomSlots.SlotCreateActionSome` | pkg/topom/topom_slots.go:53-101 | success starts actions for exactly the first numSlots movable slots of the source group |
| `TopomSlots.SlotCreateActionRange` | pkg/topom/topom_slots.go:103-159 | success starts actions for exactly the movable slots of the range; with must, every slot of the range has to be movable |
| `TopomSlots.StartActions` | pkg/topom/topom_slots.go:86-100 | a failure leaves a prefix of the planned actions started |
| `TopomSlots.StartAllPlanned` | pkg/topom/topom_slots.go:86-100 | each started slot is pending to its target with an index above all earlier ones |
| `TopomSlots.SlotRemoveAction` | pkg/topom/topom_slots.go:161-186 | only a pending action can be withdrawn, and the slot is then as before |
| `TopomSlots.SlotActionPrepareFilter` | pkg/topom/topom_slots.go:192-305 | picks the scheduler's choice, changes only that slot, and its action only from an earlier to a later state; success means migrating or finished, and if it was not before, that every proxy serves the slot from its new group |
| `TopomSlots.ToPrepared` | pkg/topom/topom_slots.go:255-271 | the prepared state is stored only after every proxy has acknowledged the locked route |
| `TopomSlots.ToMigrating` | pkg/topom/topom_slots.go:275-288 | the migrating state is stored only after every proxy has acknowledged the route to the target with migrate-from; then all of them serve the slot |
| `TopomSlots.SlotActionComplete` | pkg/topom/topom_slots.go:307-356 | success leaves the slot at its target without an action, and every proxy serving it from there unless its group is being swapped; refused unless migrating or finished; other migrations are untouched |
| `TopomSlots.ToNothing` | pkg/topom/topom_slots.go:335-349 | the action is dropped only after every proxy has acknowledged the route without migrate-from |
| `TopomSlots.NewSlotActionExecutor` | pkg/topom/topom_slots.go:358-391 | an executor starts for a migrating slot with the current masters, and pauses exactly when slot actions are disabled or one of its groups is in a promoting state |
| `TopomSlots.ComputeMaxIndex` | pkg/topom/context.go:57-64 | the loop computes the largest action index |
| `Scheduler.MinActionIndex` | pkg/topom/topom_slots.go:200-215 | the pass finds a smallest-index acceptable action of the wanted kind, or there is none |
| `Scheduler.Pick` | pkg/topom/topom_slots.go:217-230 | non-pending before pending, pending only when enabled |
| `Scheduler.ChoiceIsUnique` | pkg/topom/topom_slots.go:200-230 | in every state of every run, at most one slot is the choice |
| `Scheduler.AcceptExact` | pkg/topom/topom_action.go:23-31 | a slot is acceptable if and only if it is not chosen yet and shares no non-zero group with a chosen one |
| `Scheduler.NothingToChooseSaturated` | pkg/topom/topom_slots.go:200-230 | when nothing is picked, every action that may be worked on is chosen or shares a group with a chosen one |
| `Scheduler.UpdateKeepsDisjoint` | pkg/topom/topom_action.go:23-39 | marking an accepted slot keeps the chosen slots pairwise disjoint in their non-zero groups |
| `SlotWorker.ProcessSlotAction` | pkg/topom/topom_action.go:77-104 | a migrating slot is completed only when the source has no key of it, or the slot had no group, for any databases, retries and pauses, with any clients, and any dashboard requests before and during its rounds that leave this worker alone; it is completed once the walk is over; success means that the slot belongs to the target its action had, has no action, and is served by every proxy |
| `SlotWorker.WorkOnce` | pkg/topom/topom_action.go:77-104 | one round leaves no executor behind; it completes a migrating slot if the walk is over with an empty source, or there is no source group, and otherwise stays at a database that still has keys or goes on to a higher one; success means the slot is at its target without an action and served; it fails only if a call failed, the dashboard is out of service or the slot is not migrating |
| `SlotWorker.RunExecutor` | pkg/topom/topom_slots.go:390-446 | no remaining keys and no next database means the source is empty of the slot, even with clients at work between the count and the listing; it fails only if a call to the source fails |
| `SlotWorker.NextDb` | pkg/topom/topom_slots.go:434-444 | the smallest listed database above the current one |
| `TopomGroup.CreateGroup` | pkg/topom/topom_group.go:15-36 | refuses ids out of range or taken; otherwise an empty group or no change |
| `TopomGroup.RemoveGroup` | pkg/topom/topom_group.go:38-56 | only an existing empty group is removed |
| `TopomGroup.ResyncGroup` | pkg/topom/topom_group.go:58-79 | success means that every proxy holds the current route of every slot of the group, and serves it unless it is locked |
| `TopomGroup.GroupAddServer` | pkg/topom/topom_group.go:104-148 | refused exactly for an empty or known address, a missing group or a promoting one; otherwise the server is appended or nothing changes |
| `TopomGroup.GroupDelServer` | pkg/topom/topom_group.go:150-203 | refused exactly for an unknown server, a promoting group, or a master with replicas or slots; otherwise exactly that server goes, the address with it, or nothing changes |
| `TopomGroup.GroupPromoteServer` | pkg/topom/topom_group.go:205-350 | refused exactly when the server or the phase does not fit or a migration runs; success, from whatever phase an earlier call stopped at, leaves the server first, the promotion gone, and every proxy serving every slot of the group that may be served |
| `TopomGroup.PromoteLock` | pkg/topom/topom_group.go:251-269 | the prepared state is stored only after every slot of the group is locked on every proxy |
| `TopomGroup.PromoteReorder` | pkg/topom/topom_group.go:273-323 | the servers are reordered only in the prepared state |
| `TopomGroup.PromoteEnd` | pkg/topom/topom_group.go:327-343 | the promotion ends only after every proxy holds the unlocked routes to the new master |
| `TopomGroup.Reorder` | pkg/topom/topom_group.go:293-301 | the loop builds the promoted order |
| `TopomGroup.GroupIndex` | pkg/topom/context.go:188-195 | the first position of an address, or none |
| `TopomGroup.CheckPromote` | pkg/topom/topom_group.go:213-233 | the checks before a promotion pass exactly when the promotion is allowed |
| `TopomGroup.CheckDel` | pkg/topom/topom_group.go:158-175 | the checks before a removal pass exactly when the removal is allowed |
| `TopomProxy.RegisterProxy` | pkg/topom/topom_proxy.go:14-76 | success registers the proxy under a fresh id, or keeps its record, with all its routes up to date and every slot served that may be; other proxies are untouched |
| `TopomProxy.ReinitProxy` | pkg/topom/topom_proxy.go:103-118 | success leaves every route of the proxy up to date, and every slot served that may be |
| `TopomProxy.ReinitWith` | pkg/topom/topom_proxy.go:126-151 | filling all slots of one proxy |
| `TopomProxy.RemoveProxy` | pkg/topom/topom_proxy.go:78-101 | without force, the step that forgets a proxy comes directly after its confirmed shutdown in the same call |
| `TopomProxy.MaxProxyId` | pkg/topom/context.go:302-307 | an upper bound of all proxy ids that one of them attains, or zero |
| `TopomRebalance.SlotsRebalance` | pkg/topom/topom_slots.go:547-715 | success returns a plan with all the guarantees of RebalancePlan.Plan for the stored slots and the groups with servers; confirmed, exactly the planned actions are started, each towards its planned group; migrations under way are untouched |
| `TopomRebalance.StartPlans` | pkg/topom/topom_slots.go:690-715 | success leaves exactly the planned slots pending, each towards its planned group, with rising indices in order of slot ids |
| `RebalancePlan.Plan` | pkg/topom/topom_slots.go:567-688 | for any number of slots: slots with an action are never planned, every idle offline slot is, no plan targets the slot's own group, no group both gives and receives, none gives below the lower bound; a group above it that keeps a movable slot is at most one larger than any other; no receiving group ends larger than a giving one; without actions every group ends at floor(N/n) or ceil(N/n), and no other such plan moves fewer slots; nothing is planned if no slot is offline and the groups are within one of each other; of each group the largest ids move, smaller ids to smaller groups |
| `RebalanceGoals.PlanHasFewest` | pkg/topom/topom_slots.go:635-688 | without actions, a plan that is even, in which no group both gives and receives and no receiver overtakes a giver, is at most as large as any even plan |
| `RebalanceGoals.EvenNeedsNothing` | pkg/topom/topom_slots.go:655-657 | such a plan is empty if no slot is offline and no two groups differ by more than one |
| `RebalanceGoals.LeastSurplus` | pkg/topom/topom_slots.go:655-663 | from the same sizes to sizes of floor or ceil with the same total, the groups give up least if none is raised to the higher size while another goes down to the lower |
| `RebalancePlan.PlanOvertakesNone` | pkg/topom/topom_slots.go:658-662 | no group that receives ends larger than one that gives |
| `RebalancePlan.MakePlans` | pkg/topom/topom_slots.go:680-688 | the docking list is consumed exactly and in order, each group receiving what its counter says |
| `RebalancePlan.Undock` | pkg/topom/topom_slots.go:665-678 | each giving group docks exactly its surplus count of movable slots, those with the largest ids; the slice is in bounds |
| `RebalancePlan.LoadIsSize` | pkg/topom/topom_slots.go:665-688 | what a group holds after the plan is what the balancer's counters say |
| `RebalancePlan.WantedIsDocked` | pkg/topom/topom_slots.go:680-688 | what the receiving groups want is as much as was docked |
| `RebalancePlan.EvenSizes` | pkg/topom/topom_slots.go:632-656 | sizes that differ by at most one above the lower bound and sum to N are floor or ceil of N/n |
| `RebalancePlan.PlanIsEven` | pkg/topom/topom_slots.go:635-663 | the final counters make the plan as even as the movable slots allow |
| `RebalancePlan.PlanIsPerfect` | pkg/topom/topom_slots.go:635-663 | without actions the plan is perfectly even |
| `RebalancePlan.PlanGivesSurplus` | pkg/topom/topom_slots.go:665-678 | givers and receivers are different groups, and givers stay at or above the lower bound |
| `Rebalance.Balance` | pkg/topom/topom_slots.go:635-663 | the loop ends, conserves the total and the number of docked slots, leaves every group balanced against every other, and no receiving group larger than a giving one |
| `Rebalance.MoveFrugal` | pkg/topom/topom_slots.go:655-662 | each move keeps: who gave is at most one smaller than any in the tree, who received at most one larger than any other, and no receiver larger than a giver |
| `Rebalance.MoveShrinksSquares` | pkg/topom/topom_slots.go:655-659 | moving a slot between sizes more than one apart lowers the sum of squares, the second part of the termination measure |
| `Rebalance.FindExtremes` | pkg/topom/topom_slots.go:636-646 | the leftmost and rightmost groups of the tree are a true minimum and maximum |
| `Rebalance.MoveKeeps` | pkg/topom/topom_slots.go:658-662 | a group's size changes only while its key is out of the tree, so the tree stays ordered |
| `Rebalance.PlaceOffline` | pkg/topom/topom_slots.go:616-630 | every idle offline slot is docked, and each goes to a group that no other is smaller than at that moment |
| `Rebalance.CountActions` | pkg/topom/topom_slots.go:577-582 | counts, per group, the slots that will end there because of an action |
| `Rebalance.CountIdle` | pkg/topom/topom_slots.go:584-598 | splits each group's idle slots into those that stay below the lower bound and those that may go, the latter with the larger ids |
| `Rebalance.BuildTree` | pkg/topom/topom_slots.go:600-613 | the tree holds every group once, in order of size |
| `GroupTree.LeftIsMinimum` | pkg/topom/topom_slots.go:600-613 | in an ordered tree the leftmost key has the smallest size |
| `GroupTree.RightIsMaximum` | pkg/topom/topom_slots.go:600-613 | in an ordered tree the rightmost key has the largest size |
| `GroupTree.CountIsCardinality` | pkg/topom/topom_slots.go:635-635 | the size of an ordered tree is the number of its keys |
| `GroupTree.PutOrdered` | pkg/topom/topom_slots.go:600-613 | insertion under the comparator keeps order and adds exactly the key |
| `GroupTree.RemoveOrdered` | pkg/topom/topom_slots.go:636-646 | removal under the comparator keeps order and removes exactly the key |
| `MigrationSafety.RunRefinesOneMap` | pkg/proxy/forward.go:46-140 | commands on any number of keys, through any proxies and interleaved with all migration steps in any order, act and reply as on one map, if none names a key that is on the other server when it is executed |
| `MigrationSafety.CarefulRunsRefine` | pkg/proxy/forward.go:46-140 | that is so in every run whose commands stay within the tag of their hash key, and within the hash key itself behind the exec-wrapper |
| `MigrationSafety.TagMovesRefine` | pkg/proxy/forward.go:46-66 | with SLOTSMGRTTAGONE it is so for all commands within one tag and with a non-empty hash key |
| `MigrationRequests.ExecutedOnce` | pkg/proxy/forward.go:46-140 | in every run, a request that was let in and is gone without having failed has been executed exactly once, and what was executed is its own command |
| `MigrationRequests.GoneIsExecutedOrFailed` | pkg/proxy/forward.go:46-140 | a step takes a request away only by executing its command, or by a reset, an error of the tag move, or a busy key on this request |
| `MigrationRequests.StaysSame` | pkg/proxy/forward.go:111-140 | a request that stays keeps its command and proxy, and moves on to the target only by its own tag move or absent hash key |
| `MigrationRequests.ForwardedStays` | pkg/proxy/forward.go:59-65 | after its tag was moved, or its hash key was not found, the request is on its way to the target |
| `MigrationRequests.NothingUnasked` | pkg/proxy/forward.go:111-140 | in every run, what is on its way was let in with that command, has been on its way since, and has had no effect yet |
| `MigrationRequests.CanBeExecuted` | pkg/proxy/forward.go:46-140 | in every state of every run, a request on its way can be executed within two more steps |
| `MigrationRequests.CanBeFinished` | pkg/topom/topom_slots.go:390-446 | in every state of every run, a started migration can be finished within five more steps |
| `MigrationTags.TagWiseRunsRefine` | pkg/proxy/forward.go:177-228 | with the exec-wrapper it is so for all commands within one tag, and no tag is ever split, as long as a hash key that is absent on the source has no key of its tag there |
| `MigrationTags.TagWiseKeeps` | extern/redis-3.2.11/src/slots.c:690-765 | each such step keeps tags whole and requests behind their tags |
| `MigrationSafety.StepRefines` | pkg/proxy/forward.go:111-228 | each step is nothing or one command on that map |
| `MigrationSafety.StepKeeps` | pkg/topom/topom_slots.go:390-446 | no step, of whatever client, puts a key back into a database that the walk has passed, and requests fit the mode of their proxy |
| `MigrationSafety.FinishedMeansSourceEmpty` | pkg/topom/topom_slots.go:307-356 | in every state of every run: when the finished state is stored, and when any proxy has dropped migrate-from, the source has no key of the slot |
| `MigrationSafety.DroppedMeansTargetIsAll` | pkg/topom/topom_slots.go:307-356 | once a proxy has dropped migrate-from, the target alone is the one map the clients have been using |
| `MigrationLimits.ExecutionExact` | pkg/proxy/forward.go:46-66 | executing on one server is right for every command on the given keys if and only if none of them is on the other |
| `MigrationLimits.WrapperExact` | extern/redis-3.2.11/src/slots_async.c:1277-1290 | where the exec-wrapper sends a hash key is right for every command of its tag if and only if the tag has no key on the other server |
| `MigrationLimits.WrapperExactInRuns` | extern/redis-3.2.11/src/slots_async.c:1277-1290 | in every run that has kept tags whole, if and only if the hash key is on the source or no key of its tag is |
| `MigrationLimits.UnionStoreMisses` | extern/redis-3.2.11/src/slots_async.c:1277-1282 | a run in which SUNIONSTORE {t}dst {t}a is answered 0 instead of 1 |
| `MigrationLimits.WrapperMisses` | extern/redis-3.2.11/src/slots_async.c:1277-1282 | such a run for every command that names another key of its tag |
| `MigrationLimits.SplitTagMisses` | extern/redis-3.2.11/src/slots_async.c:1283-1300 | a run that goes wrong with the hash key on the source, after another command has split the tag |
| `MigrationLimits.EmptyKeyMisses` | pkg/proxy/forward.go:52-58 | a run in which a command with the empty hash key misses its key |
| `MigrationLimits.CommandsExact` | pkg/proxy/forward.go:111-140 | with either forwarding method, commands of a shape are right in every run if and only if they name at most their hash key, and none if that is empty |
| `MigrationLimits.TagMovesExact` | pkg/proxy/forward.go:46-66 | with SLOTSMGRTTAGONE, if and only if the hash key is not empty or they name no key |
| `Migration.IndexOf` | pkg/proxy/mapper.go:307-318 | the search used for the hash tag of a key |
| `Migration.TagIsBetween` | pkg/proxy/mapper.go:307-318 | the tag of a name is what stands between the first opening brace and the next closing one |
| `Migration.TagWhenBraced` | pkg/proxy/mapper.go:307-318 | a name has a tag if and only if some opening brace has a closing one after it |
| `MigrationRoutes.RoutesGiveModes` | pkg/topom/context.go:84-113 | in every run, the routes the proxies hold are modes that the migration allows: none serves from the source after the authority has moved or from the target before, and migrate-from is dropped only at the end or without a source |
| `MigrationRoutes.SwitchOnlyBlocked` | pkg/topom/topom_slots.go:255-271 | the authority moves only while no proxy serves the slot |
| `MigrationRoutes.StepMirrored` | pkg/topom/topom_slots.go:242-356 | every step of the control plane, up to the finished state of the slot, is one step of the migration or nothing, if reroutes find the proxy idle and the finished state is stored only when the walk is over or the slot had no group |
| `MigrationGate.RunsAreMigrations` | pkg/proxy/router.go:328-374 | whatever the gates of all proxies do, in every run the servers go through steps of the migration: a fill that a gate installs finds none of its proxy's requests on the way |
| `MigrationGate.FillIsRefill` | pkg/proxy/slots.go:53-67 | one such fill, with nothing asked of the requests, is a legal refill |
| `SlotGate.DrainBeforeReroute` | pkg/proxy/router.go:328-374 | in every interleaving of requests, replies and fills, the route changes only while nothing is inside the gate or unanswered |
| `SlotGate.UnansweredUseCurrentRoute` | pkg/proxy/forward.go:35-66 | every unanswered request was let through on the route the slot still has |
| `SlotGate.LockedFillIsQuiet` | pkg/proxy/slots.go:53-67 | after a locked fill, nothing is in flight and nothing gets in until an unlocking fill |
| `SlotGate.OpensUnlessLocked` | pkg/proxy/router.go:372-374 | after a fill is installed the slot has its route, and a new request gets in if and only if the fill was not locked |
| `SlotGate.CanBeInstalled` | pkg/proxy/slots.go:53-67 | in every state of every run, a fill in progress can be installed once requests leave and are answered |
| `SlotGate.StepKeeps` | pkg/proxy/slots.go:53-67 | every step keeps: the counter is the number of unanswered requests, the exclusive lock excludes readers, hold and lock go together |
| `Router.Router.FillSlot` | pkg/proxy/router.go:244-264 | refused exactly when closed, out of range or of unknown method, changing nothing; otherwise the slot holds requests back if and only if the fill is locked, uses connections to the given addresses or none where there is none, and the non-empty replica groups in order; every count is still the number of slot references |
| `Router.Router.Fill` | pkg/proxy/router.go:328-394 | gives the old references back before taking the new ones; only this slot changes, and it holds, uses and counts what it was told |
| `Router.Router.TrySwitchMaster` | pkg/proxy/router.go:411-437 | backend and migrate-from follow the new master of their group unless it is the same server; the lock state stays |
| `Router.Router.SwitchMasters` | pkg/proxy/router.go:396-409 | every slot is as TrySwitchMaster makes it, and none is locked or unlocked |
| `Router.Router.Close` | pkg/proxy/router.go:77-94 | afterwards no slot refers to a connection and both pools are empty |
| `Router.Router.constructor` | pkg/proxy/router.go:47-63 | no slot refers to a connection |
| `Router.Router.SlotsUseOpenConns` | pkg/proxy/router.go:328-367 | every connection a slot uses, replicas included, is open and is the pooled one for its address |
| `Router.Router.PoolsHoldReferenced` | pkg/proxy/backend.go:567-580 | the pools hold exactly the addresses some slot refers to |
| `Router.RefsUpdate` | pkg/proxy/router.go:328-367 | changing one slot changes the number of references by exactly that slot's |
| `Router.SnapshotStable` | pkg/proxy/slots.go:32-51 | a slot reads back the same whatever happens to other slots' connections |
| `Router.RetainGroups` | pkg/proxy/router.go:356-367 | replica groups are taken in order, empty ones skipped |
| `ConnPool.Pool.Retain` | pkg/proxy/backend.go:567-580 | one more reference to the pooled connection, made with count one if there was none; the panic on a closed connection is out of reach |
| `ConnPool.Pool.Release` | pkg/proxy/backend.go:433-453 | one reference less; at zero the connection is closed and its address dropped; with a positive count the panic is out of reach |
| `ConnPool.Pool.constructor` | pkg/proxy/backend.go:516-522 | an empty pool |
| `BackendConn.ExactlyOnePlace` | pkg/proxy/backend.go:271-382 | while the connection is open, every pushed request is in exactly one of input queue, writer, task queue, reader, answers |
| `BackendConn.NeverAnsweredTwice` | pkg/proxy/backend.go:255-264 | no request is answered twice on any error or reconnect path |
| `BackendConn.RepliesInOrder` | pkg/proxy/backend.go:290-321 | the k-th reply of a round answers the k-th request written in it, in order |
| `BackendConn.DrainNeverWaits` | pkg/proxy/backend.go:342-350 | the drain at the end of a round always finds the requests it counted |
| `BackendConn.AnswersStay` | pkg/proxy/backend.go:255-264 | answers given are never taken back |
| `BackendConn.StepKeeps` | pkg/proxy/backend.go:323-382 | every step of the writer, of any round's reader and of the retry loop keeps the invariant behind these |
| `BackendOrder.WrittenInPushOrder` | pkg/proxy/backend.go:271-382 | in every run, of two requests written in one round the one pushed first is written first |
| `BackendOrder.NeverOvertaken` | pkg/proxy/backend.go:323-382 | in every run, no request waits in the input queue while one pushed later has left it |
| `BackendOrder.CanBeAnswered` | pkg/proxy/backend.go:271-382 | in every state of every run, every pushed request has been answered or can still be answered |
| `HotKeyCache.HotKeyCache.Get` | pkg/proxy/hot_key_cache.go:119-136 | a hit is exactly the value of the entry, which is the one stored last and not invalidated since, younger than the time to live, and moves to the front; an expired entry goes |
| `HotKeyCache.StoredIsFound` | pkg/proxy/hot_key_cache.go:308-366 | a value read under a token and stored with it, with nothing invalidated in between, is found until its time is over |
| `HotKeyCache.HotKeyCache.Store` | pkg/proxy/hot_key_cache.go:353-366 | stores exactly when the token is current, the slot stable and the value small enough; when full, exactly the least recently used entry makes room |
| `HotKeyCache.HotKeyCache.Put` | pkg/proxy/hot_key_cache.go:138-172 | insertion or update with eviction keeps map and list in bijection, in order of use and within the limit |
| `HotKeyCache.HotKeyCache.EvictOver` | pkg/proxy/hot_key_cache.go:165-171 | the loop evicts at most one entry, the last of the list |
| `HotKeyCache.HotKeyCache.IssueToken` | pkg/proxy/hot_key_cache.go:308-326 | a token is issued for a configured key of a stable slot and carries the current versions |
| `HotKeyCache.HotKeyCache.InvalidateKey` | pkg/proxy/hot_key_cache.go:174-187 | exactly this key's entry goes and the version advances |
| `HotKeyCache.HotKeyCache.InvalidateRemote` | pkg/proxy/hot_key_cache.go:189-224 | exactly the listed configured keys go and are counted; without one nothing happens |
| `HotKeyCache.HotKeyCache.InvalidateDatabase` | pkg/proxy/hot_key_cache.go:226-244 | exactly the entries of the database go |
| `HotKeyCache.HotKeyCache.InvalidateSlot` | pkg/proxy/hot_key_cache.go:585-591 | the slot version advances, and exactly the entries whose slot this is go |
| `HotKeyCache.RemoveKeeps` | pkg/proxy/hot_key_cache.go:266-272 | taking one entry out of map and list leaves them in bijection, in order of use, within the limit and in agreement with the history |
| `HotKeyCache.HotKeyCache.constructor` | pkg/proxy/hot_key_cache.go:91-105 | an empty cache |
| `HotKeyCache.NeverResurrects` | pkg/proxy/hot_key_cache.go:308-366 | the token of a stored value was issued after every invalidation that came before the store |
| `HotKeyCache.LiveIsFresh` | pkg/proxy/hot_key_cache.go:308-366 | what can be found was read after every invalidation that covers it |
| `HotKeyCache.MovedToFront` | pkg/proxy/hot_key_cache.go:133-150 | a use moves its key to the front and keeps the others in order |
| `HotKeyCache.LastIsLeastUsed` | pkg/proxy/hot_key_cache.go:165-171 | the back of the list is the least recently used entry |
| `Crc32.Checksum` | extern/redis-3.2.11/src/crc32.c:38-41 | the table-driven checksum of every byte string is the bit-at-a-time CRC-32 of section 8 of RFC 1952 |
| `Crc32.CheckValue` | extern/redis-3.2.11/src/crc32.c:38-41 | the digits 1 to 9 have the check value 0xcbf43926 |
| `Crc32.Update` | extern/redis-3.2.11/src/crc32.c:28-36 | the table-driven update is the bit-at-a-time one |
| `Crc32.TabInit` | extern/redis-3.2.11/src/crc32.c:7-21 | every table entry is its index shifted eight times |
| `Crc32.ByteByTable` | extern/redis-3.2.11/src/crc32.c:31-34 | one lookup does the work of eight shifts |
| `Crc32.ContinueConcat` | extern/redis-3.2.11/src/crc32.c:28-36 | updating over a and then b is updating over their concatenation |
| `Crc32.ShiftXor` | extern/redis-3.2.11/src/crc32.c:12-18 | a shift of the register is linear over exclusive or |
| `AofScan.ScanTimestamps` | pkg/topom/topom_pitr_run.go:263-323 | for every content and every way of cutting it into reads, the result is that of the whole file split at newlines |
| `AofScan.ScanExact` | pkg/topom/topom_pitr_run.go:263-323 | no annotation gives (0, 0); otherwise the result is the true minimum and maximum if and only if some timestamp is not negative and a zero is absent, last, or outdone by a negative one; positive timestamps always give the true range |
| `AofScan.RangeCanBeWrong` | pkg/topom/topom_pitr_run.go:292-300 | the file with timestamps 0 and 5 is scanned to (5, 5), and the file with -3 to (-3, 0) |
| `AofScan.ScanPiece` | pkg/topom/topom_pitr_run.go:277-305 | complete lines of a piece are taken and the rest is carried over |
| `AofScan.AnnotationRoundTrip` | pkg/topom/topom_pitr_run.go:326-336 | every 64-bit timestamp written as an annotation line is read back |
| `AofScan.OtherLinesIgnored` | pkg/topom/topom_pitr_run.go:326-336 | a line that begins with something else than the tag or white space is no annotation |
| `AofScan.IndexByte` | pkg/topom/topom_pitr_run.go:338-345 | the first position of a byte, or none |

## Left out

- Operator overrides (slots-assign to a group or offline) in the routing and data models: they replace mappings with no lock phase, so agreement is not promised for them; they are covered for integrity only.
- Sentinel-driven master switches of the dashboard, and forced removal of a proxy: they act outside the phased protocol.
- Fills that are delivered after their call has returned an error, and proxies that are not in the store: assumptions, as stated above.
- Replica groups in the dashboard's routes, the flags that enable them, and sync actions: they change where reads may go, not which master a slot belongs to. The router's counts include replica groups.
- Resynchronising all groups: it calls ResyncGroup for one group after the other and stops at the first failure, so what holds after it is what ResyncGroup leaves for a prefix of the groups.
- ACL identities, per-user connection pools, the read-only choice among replicas, and request coalescing.
- Closing a backend connection: the pipeline claims hold while it stays open. Channel capacities are not bounded, and reconnect delays are arbitrary.
- Connections are handles into their pool instead of heap objects, and pools are never closed, as for the primary and replica pools of the router.
- The locks of the dashboard and of the router serialise their operations; operations of the dashboard are modelled as atomic with respect to each other and not with respect to proxies, executors and failures.
- Red-black rotations: the tree is a binary search tree under the same comparator, which fixes the same leftmost and rightmost keys.
- Hot-key broadcast, the plans that name the keys a command writes, and the statistics counters.
- 64-bit wrap-around of versions, indices and proxy ids.
- Point-in-time recovery apart from the timestamp scan.
- Redis replication lag, persistence and real time: environment.
- Duplicates left by a move that was cut off after the target had stored the keys: moves are atomic in the model, the retry that overwrites the target's copy is not shown.
- SlotWorker.ProcessSlotAction: the number of rounds is a parameter, standing for how long the dashboard stays online, so it says nothing about a walk that never ends.
- MigrationSafety.RunRefinesOneMap: one slot with one source and one target, promotions excluded, which is what Routing.MigrationExcludesPromotion provides while an executor runs.
