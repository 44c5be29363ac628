# VERONICA control plane: a verified model

VERONICA hands out spending budgets for LLM calls. This project models the parts of it that hold
state and proves what they keep over every run, every interleaving and every input:

| module | what it models |
|---|---|
| `RedisBudget`, `RedisGrants` | the budget shared by many processes: the two Lua scripts, TTL expiry, the client side in USD, and what clients may spend on the ceilings they were granted |
| `Planner`, `Arbiter`, `ProportionalArbiter` | the drifting ceilings of the two planners and the two ways of dividing a budget |
| `BudgetLoop` | `before_step` and `after_step` of `VeronicaOS`, interleaved, with stage timeouts |
| `HistoryStore` | the file-backed history with its failing rotation against the in-memory one |
| `PolicyRegistry` | optimistic updates racing with registrations, and the distributor's version counter |
| `EventIngestor`, `BufferedEmitter` | batching, retries and dead letters; the ring buffer and its subscribers |
| `TenantRegistry`, `PolicyResolver` | the tenant forest and the policies inherited along it |
| `Rollouts` | the rollout lifecycle |
| `WhatIf` | the two evaluators of the same ceilings: simulation and replay |

Objects the program updates in place are classes. Their contracts and the steps of the runs are built
from the same functions, one for each lock section, script or call; the theorems are about runs of any
length. Money is `real`, micro-USD is
`int`. One step of a run is one lock section or one script. Clocks, failures of the file system or
of a store, timeouts, expiries and the results of callbacks are parameters of the steps, so every
theorem holds for every choice of them.

`dafny verify dfyconfig.toml` checks the whole project.

Where the code and its own documentation disagree, the model follows the code:

- `README.md:59` and `docs/onboarding.md:245` say a tenant's overrides only narrow what it inherits. The
  resolver lets the child win in either direction (`PolicyResolver.NarrowsExactlyWhen`,
  `PolicyResolver.NarrowingNotEnforced`).
- `src/veronica/rollouts/registry.py:48` says REVOKED is reachable from every other state. With a full history
  it is not (`Rollouts.RevocableExactlyWhen`, `Rollouts.StuckActive`).
- `src/veronica/rollouts/registry.py:183` says a simulation sets its result and moves the state atomically. At the
  history limit it sets the result only (`Rollouts.SimulateIsAtomicExactlyWhen`,
  `Rollouts.RefusedSimulateLeavesReport`).
- `src/veronica/ingest/event_ingestor.py:236` describes `error_total` as failed conversions. It also counts every
  outcome the store refused for good (`EventIngestor.CountersAreExact`).

Results that go against expectation and are proved as such: a grant that is not backed by a
reservation, a second settle that charges twice, a settle that pins the budget at zero, the
attained overspend of concurrent steps, the ways real spending escapes the books or the budget
(arbiter timeouts, collector timeouts, unreadable snapshots), grants that two processes at a time can
turn into any multiple of the budget, a history
limit beyond one file, colliding file names, stored versions that fall, two evaluators that read a
token ceiling differently.

## Model

| member | source | states |
|---|---|---|
| `RedisBudget.Server.Reserve` | src/veronica/_redis_scripts.py:12-39 | One atomic script: a live reservation answers with its own record and changes nothing, an absent counter is created from the total first (and stays even when the request is then refused), a sufficient counter is debited by exactly what is recorded. |
| `RedisBudget.Server.Settle` | src/veronica/_redis_scripts.py:47-75 | Refunds the difference to the record, clamps an overdraft at zero, removes the record; without a record charges the whole cost and creates the counter at zero. |
| `RedisBudget.Server.Expire` | src/veronica/_redis_scripts.py:36-38 | The TTL drops a record and refunds nothing. |
| `RedisBudget.Conservation` | src/veronica/_redis_scripts.py:12-75 | In every run, for amounts of any sign: remaining + live reservations + charged + expired = what the run opened with (total if a reserve came first, nothing if a settle did) + what the clamp forgave. |
| `RedisBudget.RemainingNeverNegative` | src/veronica/_redis_scripts.py:28-71 | The shared counter is never below zero, whatever amounts clients send. |
| `RedisBudget.ReservationsNonNegative` | src/veronica/_redis_scripts.py:36-38 | With non-negative amounts every live reservation, the charges and the leak are non-negative. |
| `RedisBudget.NeverOverReserved` | src/veronica/_redis_scripts.py:12-75 | With non-negative amounts, remaining + live reservations never exceed the total in any interleaving. |
| `RedisBudget.SettleFirstPinsBudget` | src/veronica/_redis_scripts.py:49-57 | A run that opens with a settle leaves the counter at zero for good, and every later reservation is of zero. |
| `RedisBudget.HonestIsNonNegative` | src/veronica/_redis_scripts.py:59-75 | If every settle finds its reservation and stays within it, nothing is forgiven and the run opens with the total. |
| `RedisBudget.HonestNeverOverspend` | src/veronica/_redis_scripts.py:12-75 | Then charges, leak and live reservations together stay within the total in every run, and once nothing is live and nothing leaked the counter is total minus charges whatever the order. |
| `RedisBudget.RepeatedReservesAreFree` | src/veronica/_redis_scripts.py:12-16 | Erasing every reserve of an already live step leaves the final state, the charges, the leak and the forgiven amount of the run unchanged. |
| `RedisBudget.NoRepeatsLeft` | src/veronica/_redis_scripts.py:12-16 | The erased run has no such reserve left. |
| `RedisBudget.SecondSettleChargesAgain` | src/veronica/_redis_scripts.py:49-56 | After any run, for any total and any cost, settling a step twice charges it twice: the second settle takes the expired branch. |
| `RedisBudget.UnrecordedSettleIsFreeExactlyWhen` | src/veronica/_redis_scripts.py:49-56 | A settle without a record leaves the budget alone exactly when it costs nothing or nothing is left. |
| `RedisBudget.MicroConversion` | src/veronica/redis_arbiter.py:25-32 | A dollar is a million micro-USD; conversion rounds to nearest with ties to even, is monotone, keeps the sign, and inverts the conversion back. |
| `RedisBudget.RecordsMatchReservations` | src/veronica/redis_arbiter.py:156-179 | In every run of client calls, the live USD records and the live micro-USD reservations are for the same steps and the latter are the former converted. |
| `RedisBudget.WithinCeilingsIsHonest` | src/veronica/redis_arbiter.py:106-124 | A client that keeps each cost within the recorded USD ceiling keeps it within the reservation too: rounding never turns it into an overspend. |
| `RedisBudget.ClientsNeverOverspend` | src/veronica/redis_arbiter.py:106-202 | So processes whose completions find their records charge at most the budget between them, up to half a micro-USD of rounding. |
| `RedisBudget.ArbitrateRedis` | src/veronica/redis_arbiter.py:155-202 | The client reserves the converted desire and hands out exactly the desire, or, if a step without a live reservation finds less than that, exactly what is left. |
| `RedisBudget.GrantBackedExactlyWhen` | src/veronica/redis_arbiter.py:181-186 | The ceiling handed out is backed by a reservation of the same amount exactly when the step's live reservation was for it already, or there was enough left to reserve. |
| `RedisGrants.OverspendsExactlyWhen` | src/veronica/redis_arbiter.py:106-202 | After every run in which each step stays within its last grant (refusals, lapses and retries included), what is outstanding can be finished past the total if and only if the charges so far plus all outstanding grants exceed it. |
| `RedisGrants.CarefulNeverOverspends` | src/veronica/redis_arbiter.py:132-202 | With any number of grants outstanding, refusals, lapses and retries included: if nobody arbitrates while another grant is unbacked, and no retry asks for more than its live reservation, charges and outstanding grants together stay within the total, so nothing can overspend. |
| `RedisGrants.TurnsNeverOverspend` | src/veronica/redis_arbiter.py:132-202 | In particular steps that complete before the next one arbitrates never charge more than the total. |
| `RedisGrants.OverspendIsShortfall` | src/veronica/redis_arbiter.py:132-202 | However carelessly grants are handed out, all charges stay within the total plus what settles of unbacked grants found missing. |
| `RedisGrants.GrantsOverspendBound` | src/veronica/redis_arbiter.py:181-186 | So u completed unbacked grants charge at most the total and u caps in all, the cap being the total or the largest retry of a live step. |
| `RedisGrants.GrantsBoundIsAttained` | src/veronica/redis_arbiter.py:181-186 | For every u a run with at most two grants outstanding, each step within its grant, charges exactly 1 + u totals, so no bound in the number outstanding exists. |
| `Planner.ClampBounds` | src/veronica/planner.py:61-62 | Every planned ceiling is at most the larger configured bound and at most what the chain has left, and at least the minimum when the chain has that. |
| `Planner.SimplePlanner.Plan` | src/veronica/planner.py:43-76 | A tighten cuts the ceiling by a tenth, a loosen adds a twentieth, anything else leaves it; it lands within the bounds and what the chain has left and is the next start; halt overrides the exceed action; every other term of the plan is stated too. |
| `Planner.TightensDecay` | src/veronica/planner.py:53-65 | n consecutive tightens leave at most max(min, 0.9^n max), from any start up to max and whatever the chain had left at each call. |
| `Planner.TightensReachFloor` | src/veronica/planner.py:53-65 | Enough of them (0.9^n max at most min) land exactly on min(min, chain remaining). |
| `Planner.ComputeTightenFactor` | src/veronica/adaptive_planner.py:106-126 | The first halt_tighten signal decides the factor, otherwise the worst severity of any signal, otherwise the mildest cut. |
| `Planner.TightenFactorIsCut` | src/veronica/adaptive_planner.py:106-126 | The three factors and when each applies: 0.5 or 0.85 by the first halt_tighten signal, else by the worst severity, and 0.9 without signals. |
| `Planner.AdaptivePlanner.Adjust` | src/veronica/adaptive_planner.py:64-79 | The factor is applied only outside the cooldown and only for tighten and loosen. |
| `Planner.AdaptivePlanner.Plan` | src/veronica/adaptive_planner.py:54-104 | Outside the cooldown a tighten cuts by its factor and a loosen adds 3 percent, and three plans are waited; then 1.5 times the estimate, the bounds and what the chain has left; every other term of the plan is stated too. |
| `Planner.CooldownAfterAdjustment` | src/veronica/adaptive_planner.py:65-93 | After an adjusting call the cooldown counts down 3, 2, 1 whatever the next calls ask for. |
| `Planner.AdjustmentsAreSpaced` | src/veronica/adaptive_planner.py:72-93 | Two adjusting calls are at least four calls apart in every run from every state. |
| `Planner.AdjustmentRate` | src/veronica/adaptive_planner.py:72-93 | n calls adjust at most ceil(n/4) times. |
| `Arbiter.Issue` | src/veronica/arbiter.py:30-47 | A dict filled in order has exactly the listed chains as keys, each with its last entry. |
| `Arbiter.Passthrough` | src/veronica/arbiter.py:19-47 | Every listed chain, and no other, gets its last desire with the ceiling scaled by one common factor. |
| `Arbiter.PassthroughTotal` | src/veronica/arbiter.py:27-37 | The ceilings handed out add up to the budget when the desires add up to more than it and to something positive, and to the desires otherwise. |
| `Arbiter.TotalDesiredAdds` | src/veronica/arbiter.py:27 | The total is the sum of the single ceilings. |
| `Arbiter.ScaledInProportion` | src/veronica/arbiter.py:27-46 | A policy differs from its desire in the ceiling only; where the desires exceed the budget it is in proportion to the desired ceiling, and equal to it otherwise. |
| `ProportionalArbiter.PortionsConserve` | src/veronica/proportional_arbiter.py:48 | Portions in proportion to weights add up to the amount divided. |
| `ProportionalArbiter.PortionsOrdered` | src/veronica/proportional_arbiter.py:48-60 | A larger weight never gets a smaller portion of a non-negative amount. |
| `ProportionalArbiter.FirstPassConserves` | src/veronica/proportional_arbiter.py:47-54 | Pass 1: allocations plus surplus equal what was divided. |
| `ProportionalArbiter.SecondPassWithinBudget` | src/veronica/proportional_arbiter.py:57-63 | Pass 2 hands out at most the surplus, for any budget and any ceilings. |
| `ProportionalArbiter.PassesWithinBudget` | src/veronica/proportional_arbiter.py:42-63 | The two passes together stay within the budget. |
| `ProportionalArbiter.FloorAtMostDoubles` | src/veronica/proportional_arbiter.py:66-68 | The floor raises the total to at most twice the budget. |
| `ProportionalArbiter.RescaleDefined` | src/veronica/proportional_arbiter.py:71-73 | The rescale happens only after a floor, so its division is never by zero. |
| `ProportionalArbiter.RescaledTotal` | src/veronica/proportional_arbiter.py:71-74 | After the rescale the total is within the budget and its tolerance. |
| `ProportionalArbiter.RescaledAtLeastHalf` | src/veronica/proportional_arbiter.py:71-74 | The rescale takes at most half of any allocation and never adds. |
| `ProportionalArbiter.NeverOverAllocated` | src/veronica/proportional_arbiter.py:42-74 | Allocations add up to at most budget + 1e-12, for any budget and any ceilings. |
| `ProportionalArbiter.AllocationRange` | src/veronica/proportional_arbiter.py:42-74 | With a floor's worth of budget for everyone each chain ends with at least 0.005; none ends with more than its ceiling or the floor. |
| `ProportionalArbiter.DominationIsRespected` | src/veronica/proportional_arbiter.py:47-74 | A chain with at least the priority and at least the ceiling of another is never allocated less, through both passes, the floor and the rescale. |
| `ProportionalArbiter.SecondIsOrdered` | src/veronica/proportional_arbiter.py:47-63 | The same after the two passes, also when one of the chains was capped in pass 1. |
| `ProportionalArbiter.PassesInRatio` | src/veronica/proportional_arbiter.py:47-63 | Any two desires that end the passes below their ceilings hold amounts in the ratio of their priorities. |
| `ProportionalArbiter.RatioAsProduct` | src/veronica/proportional_arbiter.py:48-60 | That ratio, stated with multiples, as equal products of amounts and priorities. |
| `ProportionalArbiter.PassesUseBudget` | src/veronica/proportional_arbiter.py:56-63 | If somebody was not capped in pass 1 and no ceiling stops pass 2, the passes hand out all of the budget but 1e-12. |
| `ProportionalArbiter.PassesAreProportional` | src/veronica/proportional_arbiter.py:38-63 | For any budget and ceilings: that ratio; exactly the ceiling for whoever's share by priority exceeds it, at least the share for anybody else; never beyond the budget, and all of it where no ceiling stops pass 2. |
| `ProportionalArbiter.AllocationIsProportional` | src/veronica/proportional_arbiter.py:38-74 | The same of the final allocations wherever neither floor nor rescale acts. |
| `ProportionalArbiter.AllocationInRatio` | src/veronica/proportional_arbiter.py:47-74 | The ratio of priorities survives the rescale, for desires the floor leaves alone. |
| `ProportionalArbiter.FlooredExactly` | src/veronica/proportional_arbiter.py:65-68 | The floor raises exactly what is below 0.01, and only if the budget has 0.01 for everybody. |
| `ProportionalArbiter.RescaleFactor` | src/veronica/proportional_arbiter.py:70-74 | The rescale multiplies everybody by the one factor that lands the total on the budget, or changes nothing. |
| `ProportionalArbiter.FirstPass` | src/veronica/proportional_arbiter.py:43-54 | The loop leaves every share cut at its ceiling in the table, the cut parts in the surplus, and the uncut desires in the list. |
| `ProportionalArbiter.Redistribution` | src/veronica/proportional_arbiter.py:57-61 | The weight test and each uncapped desire's part of the surplus. |
| `ProportionalArbiter.SecondPass` | src/veronica/proportional_arbiter.py:60-63 | The loop over the uncapped desires raises exactly their entries, cut at their ceilings again. |
| `ProportionalArbiter.Finish` | src/veronica/proportional_arbiter.py:65-96 | Floor, total, rescale and the resulting policies, which keep every other term of the desire; no division by zero for distinct chains. |
| `ProportionalArbiter.Arbitrate` | src/veronica/proportional_arbiter.py:25-96 | Exactly the chains with a positive priority are answered; when no chain is listed twice each gets its allocation and its other terms unchanged, and the ceilings answered are proportional to the priorities wherever neither floor nor rescale acts. |
| `BudgetLoop.VeronicaOS.BeforeStep` | src/veronica/os.py:271-449 | One lock section: only the planner's state changes, to what it comes to for the chain, even on a timeout. The ceiling issued by cases: zero for a denied request, else the planner's (or at most a dollar and what is left when it overran), never above the organisation's cap, and never above what is left if the arbiter saw it and it is positive. |
| `BudgetLoop.IssuedIsByCases` | src/veronica/os.py:366-449 | The same of the step that runs are made of. |
| `BudgetLoop.IssuedWithinOrgCeiling` | src/veronica/types.py:243-252 | No request that was not denied is issued more than the organisation's cap, whatever timed out. |
| `BudgetLoop.OrgCeilingHolds` | src/veronica/os.py:405-407 | In every run, so does every step in flight that such a request began. |
| `BudgetLoop.BeginTakesUp` | src/veronica/os.py:206-218 | A begin books nothing and its step starts exactly when its ceiling is not negative. |
| `BudgetLoop.FinishStep` | src/veronica/os.py:487-541 | A finish takes its step out of flight, and only a reported cost changes what is booked, on its chain and in total. |
| `BudgetLoop.VeronicaOS.AfterStep` | src/veronica/os.py:487-541 | The cost is added to the total and to its chain in one section, or to neither when the collector overran. |
| `BudgetLoop.IssueBounds` | src/veronica/os.py:366-449 | Whatever the stages did, a ceiling is at most max(planner bounds, 1.0); it is at most what is left exactly when the request fits, that is, when no arbiter timeout lets a larger desire through; and when positive it is at most the larger of what is left in total and on the chain. |
| `BudgetLoop.PassThroughOne` | src/veronica/arbiter.py:27-37 | On a single desire the default arbiter is the minimum rule the budget loop uses. |
| `BudgetLoop.RunFacts` | src/veronica/types.py:173-192 | A step in flight never has a negative ceiling, since the conversion to an execution config refuses one, nor one above the cap. |
| `BudgetLoop.OverspendBound` | src/veronica/os.py:366-541 | With at most k steps in flight, each costing at most its ceiling, and every request fitting: spend plus in-flight ceilings never exceed budget + (k-1) max(planner bounds, 1.0), in every interleaving and under any timeouts that let the requests fit. |
| `BudgetLoop.CappedOverspendBound` | src/veronica/os.py:366-541 | With an organisation's cap that is not negative the bound holds with the smaller of the two caps. |
| `BudgetLoop.SequentialNeverOverspends` | src/veronica/os.py:206-230 | One step at a time never books more than the budget, if every request fits. |
| `BudgetLoop.OverspendBoundIsTight` | src/veronica/os.py:366-371 | For every k a run attains the bound exactly, since `before_step` deducts nothing. |
| `BudgetLoop.TotalIsSumOfChains` | src/veronica/os.py:533-539 | Total spend equals the sum of the chains' spend in every run. |
| `BudgetLoop.ChainWithinTotal` | src/veronica/os.py:533-539 | With non-negative costs no chain's spend exceeds the total. |
| `BudgetLoop.ChainOverspendBound` | src/veronica/os.py:366-541 | Per chain the bound holds with that chain's own number of steps in flight, even when planner, arbiter and collector time out. |
| `BudgetLoop.BooksMissExactlyTheLost` | src/veronica/os.py:222-503 | What finished steps really cost is the booked spend plus exactly what snapshots that could not be read and collector timeouts lost. |
| `BudgetLoop.TrueCostBound` | src/veronica/os.py:366-541 | So real spending obeys the same bound up to the lost costs. |
| `BudgetLoop.FlightOverspendsExactlyWhen` | src/veronica/os.py:533-539 | Whatever number of steps is in flight, some costs within their ceilings take the books past the budget exactly when booked and in-flight ceilings together exceed it. |
| `BudgetLoop.OverspendsExactlyWhen` | src/veronica/os.py:366-449 | So taking up a request makes overspending possible exactly when booked, in flight and issued together exceed the budget. |
| `BudgetLoop.AloneOverspendsExactlyWhen` | src/veronica/os.py:438-449 | With nothing in flight and books within the budget that is exactly when the request does not fit. |
| `BudgetLoop.SequentialSafeExactlyWhen` | src/veronica/os.py:366-541 | In every sequential run within its ceilings: overspending is never possible if and only if every request fits. |
| `BudgetLoop.WithoutTimeoutAllFit` | src/veronica/os.py:430-437 | Without an arbiter timeout every request fits. |
| `BudgetLoop.OwnShareFits` | src/veronica/os.py:368-375 | A request on a chain that did all the spending so far fits under any timeout. |
| `BudgetLoop.OneChainFits` | src/veronica/os.py:366-449 | So runs on a single chain fit throughout, whatever times out. |
| `BudgetLoop.ArbiterTimeoutEscapes` | src/veronica/os.py:438-449 | A sequential run over two chains with one arbiter timeout that books twice the budget. |
| `HistoryStore.MemoryStore.Commit` | src/veronica/store.py:46-73 | Refuses exactly a new chain beyond 10000; otherwise appends and keeps the newest 50000 outcomes of that chain, leaving the others alone. |
| `HistoryStore.MemoryStore.BuildHistory` | src/veronica/store.py:75-103 | Exactly the last `limit` outcomes for a limit within 1..50000 (the nearer bound otherwise), and the exact length of the run of failures they end with. |
| `HistoryStore.FileStore.Commit` | src/veronica/file_store.py:155-254 | Appends to the active file, updates the chain's statistics, and rotates when due, resetting the counter only if the rotation worked. |
| `HistoryStore.FileStore.Count` | src/veronica/file_store.py:33-36 | One outcome in the statistics: the average with weights 0.3 and 0.7 or restarted near zero, the streaks and the counters. |
| `HistoryStore.FileStore.Rotate` | src/veronica/file_store.py:304-320 | Unlink and rename, where either may fail and leave what was done so far. |
| `HistoryStore.FileStore.ReadOutcomes` | src/veronica/file_store.py:333-387 | A missing file reads as empty; every record comes back with negative numbers raised to zero and without events. |
| `HistoryStore.FileStore.LoadRecentOutcomes` | src/veronica/file_store.py:322-331 | The rotated file is consulted only when the active one is shorter than the limit. |
| `HistoryStore.FileStore.BuildHistory` | src/veronica/file_store.py:267-292 | What the two files yield for `limit` itself when it is within 1..50000, and the chain's statistics. |
| `HistoryStore.MemoryKeepsTail` | src/veronica/store.py:70-73 | After every run the in-memory chain is the last 50000 of everything accepted for it. |
| `HistoryStore.SameChains` | src/veronica/file_store.py:169-175 | Both stores accept the same commits: after every run they know the same chains. |
| `HistoryStore.NamesApart` | src/veronica/file_store.py:310-311 | Two chains share a file exactly when one id is the other followed by ".1". |
| `HistoryStore.ChainsAreIndependent` | src/veronica/file_store.py:197-254 | Without such a collision, a chain's files and counter after any run are those of its own commits alone. |
| `HistoryStore.PairRunIntact` | src/veronica/file_store.py:249-320 | Under every pattern of rotation failures the log is what was discarded, then the rotated file, then the active one, and nothing is discarded while a reader of one file's length could miss it. |
| `HistoryStore.FileStoreMatchesMemory` | src/veronica/file_store.py:304-331 | For every run of commits to any chains, every pattern of rotation failures and every limit up to max_lines, the file store returns the last `limit` commits (the number asked for, when within 1..50000), which is what the in-memory store returns, cleaned as reading cleans them. |
| `HistoryStore.AgreeExactlyWhenClean` | src/veronica/file_store.py:368-382 | The two agree to the letter exactly when none of those outcomes had a negative number or events to lose. |
| `HistoryStore.LimitBeyondOneFileFails` | src/veronica/file_store.py:322-331 | Past max_lines the promise fails for every configuration. |
| `HistoryStore.CollidingChainTakesFile` | src/veronica/file_store.py:310-317 | For every max_lines a chain named like another's rotated file takes that file over: the victim no longer reads its latest outcome, and the other chain reads it as its own. |
| `HistoryStore.StatsAreTally` | src/veronica/file_store.py:201-228 | A chain's statistics depend on its own accepted commits only, whatever rotation did. |
| `HistoryStore.StreaksMatchLog` | src/veronica/file_store.py:220-228 | The incremental streaks are the trailing runs of the whole log and the count is its length. |
| `HistoryStore.ScannedStreakIsCapped` | src/veronica/store.py:86-91 | The in-memory store's scanned failure streak is the file store's, cut at the limit. |
| `HistoryStore.TrailingRunUnique` | src/veronica/store.py:86-91 | A log ends in only one run length of failures or of successes. |
| `HistoryStore.EmaWithinCosts` | src/veronica/file_store.py:33-36 | The cost average, near-zero resets included, stays between any bounds on the costs committed. |
| `PolicyRegistry.Distributor.Distribute` | src/veronica/distribution/policy_distributor.py:101-184 | Exactly the admissible policies (non-negative ceilings and timeout, a known exceed action, and in strict mode all limits given) get the next version; others use up none. |
| `PolicyRegistry.ValidIsAdmissible` | src/veronica/distribution/policy_distributor.py:101-151 | The test that runs are made of is that one. |
| `PolicyRegistry.Registry.Put` | src/veronica/api/policy_registry.py:71-74 | The lock section of register overwrites without looking. |
| `PolicyRegistry.Registry.Register` | src/veronica/api/policy_registry.py:66-74 | A valid policy is stored under the next version over whatever is there; an invalid one changes nothing. |
| `PolicyRegistry.Registry.ReadForUpdate` | src/veronica/api/policy_registry.py:96-112 | Unknown chain, stale version, or the bundle read together with the changed policy, field by field. |
| `PolicyRegistry.Registry.CommitUpdate` | src/veronica/api/policy_registry.py:114-121 | Stores only if the version is still the one the caller named. |
| `PolicyRegistry.Registry.Update` | src/veronica/api/policy_registry.py:76-121 | Undisturbed, an update succeeds exactly when the version is current and the result admissible; then every field given has its value, every other field, the chain and all other chains are as before, and the issue time is now. |
| `PolicyRegistry.Invariant` | src/veronica/api/policy_registry.py:66-121 | In every interleaving each version is in at most one place (a chain or a thread), every bundle in sight is the one issued under its version, and replaced versions never return. |
| `PolicyRegistry.UpdatesAreAtomic` | src/veronica/api/policy_registry.py:76-121 | In every interleaving with registers, a successful update replaced the very bundle it read, wrote that bundle's policy with exactly the given fields replaced, field by field, under a strictly greater version, and no two successful updates carried the same version. |
| `PolicyRegistry.UpdatedAppliesFields` | src/veronica/api/policy_registry.py:106-109 | What an update makes of a policy, field by field. |
| `PolicyRegistry.UpdateSucceedsAlone` | src/veronica/api/policy_registry.py:76-121 | From every reachable state an admissible update of the current version that nothing interferes with succeeds: its three sections write the fields applied under the next version. |
| `PolicyRegistry.RegisterSucceedsAlone` | src/veronica/api/policy_registry.py:66-74 | So does a registration. |
| `PolicyRegistry.VersionFallsExactlyWhen` | src/veronica/api/policy_registry.py:66-74 | From any reachable state a chain's stored version falls exactly when a register stores a bundle issued before the stored one. |
| `PolicyRegistry.RegistersMayLowerVersion` | src/veronica/api/policy_registry.py:71-74 | Two racing registers that do this for any valid policy. |
| `EventIngestor.OutcomeStore.PutMany` | src/veronica/ingest/event_ingestor.py:161-179 | The store holds the last max_records of what it held and was given. |
| `EventIngestor.Ingestor.Write` | src/veronica/ingest/event_ingestor.py:316-348 | Persists everything if one of three attempts succeeds; otherwise fills the dead-letter list up to 1000 and counts every outcome as an error. |
| `EventIngestor.Ingestor.Enqueue` | src/veronica/ingest/event_ingestor.py:259-284 | A failed conversion only counts an error; a converted event joins the batch, and a full batch is handed over and replaced by an empty one. |
| `EventIngestor.Ingestor.Ingest` | src/veronica/ingest/event_ingestor.py:258-295 | One event from conversion to store, with the whole new state. |
| `EventIngestor.Ingestor.Flush` | src/veronica/ingest/event_ingestor.py:302-314 | The batch is emptied and written; the result is the number persisted. |
| `EventIngestor.EnqueueStep` | src/veronica/ingest/event_ingestor.py:273-284 | In a run a converted event joins the batch, or leaves with it exactly when that makes it full. |
| `EventIngestor.AcceptStep` | src/veronica/ingest/event_ingestor.py:319-323 | A write is accepted within its three attempts and is then in the store. |
| `EventIngestor.GiveUpStep` | src/veronica/ingest/event_ingestor.py:329-335 | After the third refusal what fits a list of 1000 is dead-lettered, the rest dropped, and all of it counted. |
| `EventIngestor.EveryEventInOnePlace` | src/veronica/ingest/event_ingestor.py:258-348 | In every interleaving of threads each converted event is in exactly one of batch, write in flight, accepted, dead letter and dropped, as often as it was converted. |
| `EventIngestor.CountersAreExact` | src/veronica/ingest/event_ingestor.py:258-348 | ingested_total counts the conversions; error_total is conversion failures + dead letters + drops; at most 1000 dead letters, and drops only when they are full. |
| `EventIngestor.StoreKeepsTail` | src/veronica/ingest/event_ingestor.py:166-183 | In every interleaving the store is the last max_records of everything it accepted. |
| `EventIngestor.BatchStaysSmall` | src/veronica/ingest/event_ingestor.py:277-284 | Between lock sections the batch is below its size, and empty without batching. |
| `EventIngestor.IngestedIsTheSum` | src/veronica/ingest/event_ingestor.py:258-348 | ingested_total is the number of events in the five places. |
| `EventIngestor.SingleWriterKeepsOrder` | src/veronica/ingest/event_ingestor.py:273-327 | With one writer that never has to give up, refused attempts and their retries included, the accepted events, the write in flight and the batch are the converted events in order. |
| `BufferedEmitter.Emitter.Emit` | src/veronica/buffered_emitter.py:43-81 | A full ring drops its oldest event and counts it; failure counts, resets and expulsions follow from which callbacks raised. |
| `BufferedEmitter.EmitByCases` | src/veronica/buffered_emitter.py:44-81 | The ring grows until it is full and then forgets exactly its oldest event; a third failure in a row expels, another counts, a success resets. |
| `BufferedEmitter.Emitter.CallBack` | src/veronica/buffered_emitter.py:53-73 | The callback loop counts each failure once, resets each success, and names exactly those at the third failure. |
| `BufferedEmitter.Emitter.Drain` | src/veronica/buffered_emitter.py:97-102 | Takes the oldest min(n, size) events, in order, and nothing for a negative n. |
| `BufferedEmitter.Emitter.Subscribe` | src/veronica/buffered_emitter.py:83-90 | Subscribing again starts the count afresh. |
| `BufferedEmitter.Emitter.Unsubscribe` | src/veronica/buffered_emitter.py:92-95 | Removes subscriber and count. |
| `BufferedEmitter.BufferIsLogSuffix` | src/veronica/buffered_emitter.py:43-102 | In every run the buffer is the emitted log from position dropped + drained onward, within its capacity. |
| `BufferedEmitter.DrainHandsOutNext` | src/veronica/buffered_emitter.py:97-102 | A drain hands out the next stretch of that log. |
| `BufferedEmitter.ExpelledAtThirdFailure` | src/veronica/buffered_emitter.py:56-81 | In every run a subscriber is present exactly while it has not failed three times in a row since it subscribed, and its count is its trailing failures. |
| `TenantRegistry.Registry.WalkAncestors` | src/veronica/tenants/registry.py:18-37 | Returns the path to the root, and raises exactly when that path has more than 100 nodes. |
| `TenantRegistry.Registry.Register` | src/veronica/tenants/registry.py:39-56 | Succeeds exactly for a new id with an existing parent whose root path has at most 100 nodes; the depth guard's error comes exactly from a deeper parent. |
| `TenantRegistry.Registry.Update` | src/veronica/tenants/registry.py:69-87 | The given name and overrides are the tenant's, what is not given and the parent stay, and nobody else changes. |
| `TenantRegistry.UpdateStep` | src/veronica/tenants/registry.py:69-87 | The same of the step that runs are made of. |
| `TenantRegistry.RegisterAndDeleteStep` | src/veronica/tenants/registry.py:39-104 | A registration adds its tenant as given or nothing, a deletion takes away its childless tenant or nothing. |
| `TenantRegistry.Registry.Delete` | src/veronica/tenants/registry.py:89-104 | Removes exactly a tenant without children, and says which of the two refusals applies. |
| `TenantRegistry.Registry.GetAncestors` | src/veronica/tenants/registry.py:113-139 | Root-first proper ancestors; in a valid registry the depth guard never fires. |
| `TenantRegistry.StepKeepsForest` | src/veronica/tenants/registry.py:39-104 | Every operation keeps parents existing, root paths ending and at most 101 nodes long. |
| `TenantRegistry.ReachableIsForest` | src/veronica/tenants/registry.py:39-139 | In every reachable registry each tenant's root path starts at a root, steps from parent to child, repeats nobody and has at most 101 nodes. |
| `TenantRegistry.DepthsAlongPath` | src/veronica/tenants/registry.py:24-36 | Each step up the path is one level higher, so a walk cannot cycle. |
| `PolicyResolver.CheckOverrides` | src/veronica/tenants/resolver.py:139-144 | Keeps exactly the overrides that name a policy field, and fails exactly when one of those is invalid, in whatever order they come. |
| `PolicyResolver.FieldRules` | src/veronica/tenants/resolver.py:17-107 | The fourteen fields, and exactly which values each of them accepts. |
| `PolicyResolver.Resolve` | src/veronica/tenants/resolver.py:113-148 | The loop over the root path computes inheritance: the tenant's overrides applied to what its parent resolves to, errors included; an unknown tenant gets the base. |
| `PolicyResolver.NearestSetterWins` | src/veronica/tenants/resolver.py:137-146 | A field has the value of the nearest tenant on the way up that sets it. |
| `PolicyResolver.UnsetFieldIsTheBase` | src/veronica/tenants/resolver.py:137-146 | A field nobody on the root path sets is the base policy's. |
| `PolicyResolver.ResolvesExactlyWhenLegal` | src/veronica/tenants/resolver.py:139-143 | Resolution fails exactly when someone on the root path has an invalid override of a policy field. |
| `PolicyResolver.ResolvedIsWellFormed` | src/veronica/tenants/resolver.py:17-107 | A resolved policy has every field, each with a value the validator accepts, and always the base's chain id, which has no rule and so can never be overridden. |
| `PolicyResolver.OnlyDescendantsAffected` | src/veronica/tenants/registry.py:39-104 | Register, update or delete of x leaves root path and effective policy of everyone without x on its root path alone; register and delete reach only x; an update without overrides reaches nobody. |
| `PolicyResolver.UpdateTakesEffect` | src/veronica/tenants/registry.py:69-87 | After an update of x's overrides, x and every descendant that resolves and has no nearer setter resolve an overridden field to the new value. |
| `PolicyResolver.UpdateTakesEffectOnItself` | src/veronica/tenants/registry.py:69-87 | In particular x itself does, whenever it resolves at all. |
| `PolicyResolver.NarrowsExactlyWhen` | src/veronica/tenants/resolver.py:121-146 | For every limit, a child stays within its parent exactly when it does not set the field or sets no more; null lifts a limit. |
| `PolicyResolver.NarrowingNotEnforced` | src/veronica/tenants/resolver.py:138-146 | Two registrations after which a team under an organisation capped at 10 resolves to 100. |
| `Rollouts.Registry.Create` | src/veronica/rollouts/registry.py:55-60 | A new rollout is a DRAFT without history or report. |
| `Rollouts.Registry.Transition` | src/veronica/rollouts/registry.py:101-148 | Moves along an allowed edge and records from where, to where and by whom, clearing the report on the way back to DRAFT; the limit of 1000 entries refuses exactly the edges that were allowed. |
| `Rollouts.Registry.SetSimulationResult` | src/veronica/rollouts/registry.py:150-180 | Stores a report of allowed size in DRAFT only. |
| `Rollouts.Registry.Simulate` | src/veronica/rollouts/registry.py:182-226 | Stores the report and moves to SIMULATED; a refusal at the history limit keeps the stored report. |
| `Rollouts.EdgesAre` | src/veronica/rollouts/registry.py:22-41 | The allowed edges are exactly these twelve. |
| `Rollouts.HistoryIsPath` | src/veronica/rollouts/registry.py:22-41 | In every run the history is a linked path of allowed edges from DRAFT to the current state, at most 1000 long, and only grows. |
| `Rollouts.RevokedIsFinal` | src/veronica/rollouts/registry.py:40 | Nothing ever changes a revoked rollout. |
| `Rollouts.SincePromoted` | src/veronica/rollouts/registry.py:22-41 | Any history that ends in PROMOTED or ACTIVE contains SIMULATED, APPROVED and PROMOTED in that order since its last DRAFT, despite the back edges. |
| `Rollouts.ActiveWasReviewed` | src/veronica/rollouts/registry.py:22-41 | So does every reachable ACTIVE rollout. |
| `Rollouts.ReviewedHasReport` | src/veronica/rollouts/router.py:152-272 | When SIMULATED is entered through `simulate` only, as the routes do, every rollout past DRAFT and not revoked carries a storable report. |
| `Rollouts.ReportIsFrozen` | src/veronica/rollouts/registry.py:145-209 | Outside DRAFT the report cannot change until the rollout goes back to DRAFT. |
| `Rollouts.SimulateIsAtomicExactlyWhen` | src/veronica/rollouts/registry.py:196-222 | A refused simulation changes nothing exactly when it failed an earlier check or the report was there already. |
| `Rollouts.RefusedSimulateLeavesReport` | src/veronica/rollouts/registry.py:209-222 | A reachable refusal that leaves its report behind. |
| `Rollouts.RevocableExactlyWhen` | src/veronica/rollouts/registry.py:118-144 | Revocation works exactly when the rollout is not revoked and its history has room. |
| `Rollouts.StuckActive` | src/veronica/rollouts/registry.py:138-141 | An ACTIVE rollout, reached through the routes' operations, that stays ACTIVE whatever is done to it. |
| `WhatIf.Simulate` | src/veronica/api/routes/simulate.py:241-299 | Exactly the steps before the first that breaks a ceiling or the clock are let through; allowed + halted = steps; cost, running costs and the verdict on the stopping step. |
| `WhatIf.LetThroughMeans` | src/veronica/api/routes/simulate.py:172-205 | Which steps pass and what stops the next: a cost, token or step ceiling with the policy's action, or else the clock with a halt. |
| `WhatIf.EqualSteps` | src/veronica/api/routes/simulate.py:263-267 | Equal steps add up to multiples of their cost and tokens. |
| `WhatIf.LetThroughUnique` | src/veronica/api/routes/simulate.py:248-288 | The number of steps let through is determined by the steps, the policy and the clock. |
| `WhatIf.LongestPrefix` | src/veronica/api/routes/simulate.py:172-205 | Without negative costs and tokens, a prefix is let through exactly when it stays within all ceilings as a whole and on time. |
| `WhatIf.DecisionIsReplayAllows` | src/veronica/replay/engine.py:145-175 | Replay's branches amount to three tests: cost so far, position, and the event's own tokens; without an override the recorded decision stands. |
| `WhatIf.DiffByCases` | src/veronica/replay/engine.py:156-175 | The report of an event by cases, with the names of the decisions; a cost that is not finite counts as zero. |
| `WhatIf.Replay` | src/veronica/replay/engine.py:248-306 | Every event gets its decision under the override, or keeps its own without one; costs add up after refusals too; exactly the changed decisions are counted. |
| `WhatIf.SimulationAgainstReplay` | src/veronica/replay/engine.py:156-175 | For any costs and non-negative tokens, the simulation lets a step through exactly when replay allows every event up to it, the token total stays within its ceiling on the way, and the clock is on time. |
| `WhatIf.ReplayIsTheSamePrefix` | src/veronica/replay/engine.py:252-279 | For non-negative costs and no token ceiling, deadline or expiry, replay allows exactly the prefix the simulation lets through. |
| `WhatIf.AgreeExactlyWhen` | src/veronica/replay/engine.py:156-175 | For every policy and non-negative steps: replay allows exactly the prefix the simulation lets through if and only if every event it allows also keeps the token total within its ceiling and is on time. |
| `WhatIf.TokenCeilingsDiffer` | src/veronica/replay/engine.py:166-173 | Under a token ceiling replay may allow more than the simulation, and not a prefix. |

## Left out

- HTTP routes, authentication, request schemas, the command line, the UI, metrics, logging and audit records.
- The engine that executes steps (veronica-core): estimates, outcome costs and outcomes are inputs.
- The PostgreSQL store, real Redis networking and the arbiter's fallbacks (no request context, Redis error), the text of keys and records, and Lua's number formatting.
- Policy hashes, HMAC signatures and JSON text; a stored report is known by its body and its serialised length.
- Floating-point rounding and non-finite numbers, except where the code gives them a meaning of its own: a replayed cost counts as zero, an override is refused.
- Wall-clock time: issue times are omitted except for an updated policy's, and TTL, timeouts and deadlines are choices of the run.
- `VeronicaOS` with an arbiter other than the default pass-through one; the other arbiters are modelled on their own.
- The analyzers and cost models (recommendations and estimates are arbitrary inputs) and the text fields of the organisation policy, whose denial is an input and whose USD cap is modelled.
- `HistoryView` fields besides the outcomes, the streaks, the cost average and the commit count: per-model averages, headroom ratio, loop score, rolling cost.
- The chain-id pattern check: the stores are modelled for every id, which covers the ids it lets through.
- Restart of the file store: statistics files, their periodic flush and `close`, and corrupt lines.
- BufferedEmitter.ExpelledAtThirdFailure: does not model emits of different threads whose callbacks interleave (an emit is one step of a run), nor callbacks that emit, subscribe or interrupt; the buffer itself changes under one lock section per emit. Each emit's failing subscribers are an input.
- Conversion of kernel events to outcomes; whether it succeeded is an input.
- A store whose `put_many` raises after writing part of a batch; a refusal writes nothing.
- The listing and paging of registries, and children queries.
- ProportionalArbiter.Arbitrate: does not state the ceilings when a chain is listed more than once, because the floor and the rescale then act on fewer entries than desires; which chains are answered is stated for every input.
- ProportionalArbiter.FirstPass: states the table's values for distinct chains only, for the same reason.
- ProportionalArbiter.SecondPass: states the table's values for distinct chains only, for the same reason.
- ProportionalArbiter.Finish: states the ceilings for distinct chains only, for the same reason.
- BudgetLoop.VeronicaOS.BeforeStep: does not model the terms of the issued policy other than its ceiling, which no budget section reads.
- BudgetLoop.VeronicaOS.AfterStep: does not model the last analysis (each request brings an arbitrary one) and the store commit, which `HistoryStore` models.
- HistoryStore.MemoryStore.BuildHistory: does not model the rolling cost and the loop score, which is constant there; the depth is the number of outcomes.
- HistoryStore.FileStore.BuildHistory: does not model the rolling cost, the loop score, the per-model averages and the headroom ratio, nor a rotation between its two reads: it reads both files outside the lock, and such a rotation can hand back the same records twice.
- HistoryStore.FileStore.Commit: does not model the per-model averages, the headroom ratio and the periodic flush.
- HistoryStore.FileStore.ReadOutcomes: does not model corrupt lines and non-finite numbers.
- Rollouts.Registry.Create: does not model the policy and the creator a rollout carries, which no transition reads or changes.
- WhatIf.Simulate: does not model a clock that moves during a simulation; one reading serves every step.
- PolicyRegistry.Distributor.Distribute: does not model the hash, the signature, the time stamp and the execution config of a bundle, which are functions of the policy, the key and the clock.
- WhatIf.Replay: does not model the selection of events by chain and time, the sort by timestamp and step id and the cut at 100000 events; it starts from the events in the order they are replayed.
- PolicyResolver.Resolve: does not model a registry change between the tenant lookup and the ancestor walk, which are two lock sections.
- The registration of a rollout's policy on activation, which the route performs before it checks the transition.
