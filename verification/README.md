# sched-pass, verified

A Dafny model of sched-pass: the scheduler that a compiler pass weaves into GPU kernels and
the control plane that feeds it. The pass turns a kernel into a persistent-worker loop with
two claim modes, remaps every claimed id through an order table, masks work past a budget and
times each task. Hooks around each serving step decide the order, arm the claim loop, and read
the timers back into an estimator. `dafny verify dfyconfig.toml` checks the whole project.

## How it is organised

| files | what they model | main results |
|---|---|---|
| Driver, DriverData, DriverRuns, DriverTermination, WorkQueue | the generated driver as atomic steps of many blocks: launch, single stores, task end, ticket or steal; the choice of path; the class `Hardware.Gpu` does the same steps in place | exactly-once service, the stock launch's memory and exact timer rows for every complete run, termination of every run, claim accounting, the exact wrap-around condition |
| CtaBroadcast, CtaRuns, BlockThreads | the claim inside one block, thread by thread, and under the launch as a whole | all threads follow one sequence of claims, and serve what the driver has their block serve; both barriers are needed |
| Remap | the woven remap and the driver's remap on one snapshot | the exact condition under which any table, stamp and grid is served bijectively, for one size of launch and for all; the null-pointer, stock and device-table cases |
| Serving, ServingHooks, ServingPlugin | the begin and end hooks over an in-order stream of launches, copies and clears with events; the class `Plugin` runs the hooks field by field | each hook is its transition; when it plans, which branch it takes and what that leaves, in terms of its inputs alone |
| ServingOrder, ServingGate, ServingLaunch | the order published over every run of steps | exactly which snapshots serve launches of one size and of every size, in every run; with event gating each launch reads one snapshot, block by block; planned launches equal stock |
| ServingRuns | how a run can be continued: drained to a launch, taken to its next fold | an armed probe can be taken to its fold |
| ServingProbe, ServingFolds, ServingHost, ProbeFold | the observation protocol on the same runs | a fold is exactly its own step's samples under its own binding, and conserves cycles; on the host channel, exactly when |
| Shed | masked loops, linear and online softmax, generic in the loop body | masked means truncated; closed-form softmax |
| OrderBuilders, Sorting | the region-aware and grouped orders, with their array fills | permutations with their placement |
| ExpertCap | the vectorised capacity cap, buffer by buffer | refines the arrival-order greedy scan |
| LeastSquares, CompletionTime, Controller | running least squares, prediction, damped ordering | optimality of the fit, of ascending and descending orders, the dead-band |
| ListScheduling, TimedRuns | late-binding claims as list scheduling, from ticket order alone; runs of the driver with a clock, which give that order | the 2 - 1/m floor for every order table and every timed run |
| AddressForms | the worklist searches over def-use graphs, and the two-pass site classification | sound, exhaustive when drained, exact when the cone of the address is below the step limit |
| Bytes, Arena, ArenaPlane | the byte layout, setters and push over arrays | a kernel reads the last value set |
| Prelude | sums, duplicate-free sequences, permutations, pigeonhole | |

## What the code does not give

Where a promise is false as written, the code is kept as it is, the failing case is exhibited,
and the exact condition is proved.

- Tickets are exactly-once if and only if W + N fits in 2^32 (`DriverRuns.ExactlyOnceIffNoWrap`).
- A CLC launch hands out the raw ids below the smaller of its grid and `num_tasks`. An off-cadence
  step leaves `num_tasks` armed for the last planned batch. A larger launch then loses tiles, and a
  smaller one runs the stale order: tiles outside its grid, and not all of its own, unless that
  order happens to permute them (`ServingLaunch.StaleArmRunsOwnTilesIff`; both failures in
  `ServingLaunch.StaleArmMissesTiles`).
- An empty batch that installs an order stamps 0, which the kernel reads as "unchecked", over the
  table of an earlier batch (`ServingOrder.EmptyInstallBreaks`). Launches of every size stay served
  exactly when that table is its own inverse (`ServingOrder.OrderStep`, `Remap.EveryGridIff`), and a
  launch of one size exactly when the table shuffles that many tiles among themselves
  (`ServingOrder.EverySnapshotServesAll`, `ServingGate.EveryLaunchBijective`).
- A launch outside the hooked batches is covered by no event, so an install can land under it
  (`ServingGate.UnhookedBreaks`).
- On the static path with `num_tasks` 0 the driver clamps every entry away: the order is not
  live there, although the comment at lib/SchedWorkQueue.cpp:394-398 says it is
  (`Remap.DisarmedDriverIsIdentity`).
- With the order moved to a device tensor the driver reads the tensor's address as two table
  entries (`Remap.DriverIgnoresDeviceOrderIff`), and serves every id once only when those happen to
  be harmless (`Remap.AddressWordsBijectiveIff`).
- The null order pointer is the identity only on grids within the table
  (`Remap.NullPointerIsIdentityIff`).
- Under `lpt` the fresh order has the largest span there is, so a same-length order is never
  replaced exactly when the dead-band is positive, as it is by default (`Controller.LptFrozenIff`);
  the docstring of `_span` says the dead-band fires on a real ranking change.
- The fallback coefficients are not a least-squares fit when all x are equal and not positive in
  sum, unless y happens to match (`LeastSquares.FitOptimalIff`).
- On the host-mapped timer channel earlier launches can write into a probe's rows, exactly when
  one of them still has a block that can sample (`ServingHost.HostProbeExactIff`).
- On either channel a block that starts after the end-of-batch push goes unsampled, so a probe need
  not sample every tile (`ServingFolds.SampledIffOnAtStart`).
- One error path folds a probe twice (`ServingFolds.OnceStep`, `ServingFolds.RefoldHappens`, with a
  run in `ServingFolds.GiveUpReachable`).
- The masked loop equals the truncated one up to 2^32 trips, and the uncapped one the original
  below 2^32 (`Shed.CappedIsTruncationIff`, `Shed.UncappedIsOriginalIff`).
- The tail term of the list-scheduling bound is the task that ends last; THEORY.md:245-246 names
  the one started last (`ListScheduling.LastStartedIsNotEnough`), which does exactly when its cost is
  at least (m - 1)/m of the other's (`ListScheduling.LastStartedIff`).
- The searches stop after 256 steps, repeated operands included
  (`AddressForms.WideAddressMissed`); they run dry exactly on smaller cones without a target
  (`AddressForms.SearchExact`).
- `set_row` with an index of -1 to -4 overwrites the header (`Arena.RowKeepsHeaderIff`).

## How to read the model

- A run is any list of enabled events, so a statement over runs is a statement over every
  interleaving of blocks, threads, stream operations and hooks.
- Sets of running sums, probe samples and stream positions that only the proofs need are history
  variables; no transition depends on them.
- Durations, costs and scores: cycles are naturals (rows are words modulo 2^64), costs, scores and
  regression sums are reals, packed floats are opaque 4-byte values.
- The order a batch brings to the hooks is any permutation of its tiles, which is what
  `OrderBuilders.BuildOrder` returns for every cost vector, region size and block size.
- `exp` is any positive function with e(a + b) = e(a) e(b).

## Model

| member | source | states |
|---|---|---|
| DriverRuns.CompleteRun | lib/SchedWorkQueue.cpp:345-448 | Main theorem: every complete run of a launch, static, ticket or CLC and under any interleaving of single stores, serves each of the n ids once and leaves in each timer row its old value plus the durations of its tasks modulo 2^64; and if tasks write disjoint cells it ends in the memory of the one-after-the-other reference. |
| DriverRuns.NeverServedTwice | lib/SchedWorkQueue.cpp:410-444 | At every point of every run whose tickets fit the counter word, for tasks that may store to common cells, no raw id has been served twice and none outside the launch has been served. |
| DriverRuns.ServesAll | lib/SchedWorkQueue.cpp:410-444 | Every complete run serves exactly the ids the launch can hand out, once each, whatever its tasks store. |
| DriverRuns.QuiescentServedAll | lib/SchedWorkQueue.cpp:244-293 | When every block has exited or was stolen, exactly the ids a launch can hand out have been served, once each, also when workers quit early on surplus ids or failed claims. |
| DriverRuns.TicketAccounting | lib/SchedWorkQueue.cpp:212-230 | With the counter primed to W and W + N within 2^32, every complete run issued N claims of which min(W, N) failed, and the counter word holds W + N modulo 2^32. |
| DriverRuns.NoClaimAfterFailure | lib/SchedWorkQueue.cpp:437-444 | In every run, past the wrap-around too, a block that got a failing claim issues no other claim. |
| DriverRuns.ExactlyOnceIffNoWrap | lib/SchedWorkQueue.cpp:212-230 | A complete ticket run serves every id exactly once if and only if W + N fits in 2^32; past that every complete run serves id 0 twice. |
| DriverRuns.WrapDoublesZero | lib/SchedWorkQueue.cpp:221-225 | When W + N exceeds 2^32 the 32-bit ticket comes round and raw id 0 has at least two places in every quiescent outcome. |
| DriverRuns.WrapHappens | lib/SchedWorkQueue.cpp:221-225 | Every launch past the wrap has a complete run, and it serves id 0 at least twice. |
| DriverTermination.RunsTerminate | lib/SchedWorkQueue.cpp:425-444 | A measure over live workers, tickets until the next failing one and work in hand bounds the length of every run, in any interleaving, whatever the tasks store and also when tickets wrap. |
| DriverTermination.MeasureDecreases | lib/SchedWorkQueue.cpp:425-444 | Every single step lowers that measure; a wrapped counter cannot go round for ever, since each failing claim retires a worker. |
| DriverTermination.Progresses | lib/SchedWorkQueue.cpp:410-444 | A launch that is not quiescent can always take a step, so no run gets stuck early. |
| DriverTermination.RunsComplete | lib/SchedWorkQueue.cpp:345-448 | Every run of every valid launch, however far it has got, extends to a complete one. |
| DriverRuns.InvariantStep | lib/SchedWorkQueue.cpp:410-444 | One step of any block keeps the exactly-once count, claim accounting, task progress and timer invariants, and the memory invariant when tasks write disjoint cells. |
| Driver.OccStep | lib/SchedWorkQueue.cpp:410-444 | Every step leaves the number of places of each id (to be handed out, held by blocks, served) as it was, as long as the ticket has not wrapped. |
| Driver.ClaimsOnceStep | lib/SchedWorkQueue.cpp:425-444 | A step keeps: a failed claim is its block's last, and that block has exited. |
| Driver.BalancedStep | lib/SchedWorkQueue.cpp:425-444 | A step keeps tasks served equal to claims issued plus blocks about to claim: the claim comes strictly after the body. |
| Driver.FailsBalancedStep | lib/SchedWorkQueue.cpp:420-444 | In ticket mode a step keeps failed claims equal to the exited workers that had a first task. |
| Driver.CounterStep | lib/SchedWorkQueue.cpp:221-225 | A step keeps the counter word at W plus the claims issued, modulo 2^32. |
| DriverData.MemoryWrite | lib/SchedWorkQueue.cpp:425-436 | One store by any block keeps every cell equal to what the tasks' progress says, when tasks write disjoint cells. |
| DriverData.MemoryComplete | lib/SchedWorkQueue.cpp:425-436 | When every task has run to its end memory is the reference memory, whatever order the stores came in. |
| DriverData.TimersFinish | lib/SchedWeave.cpp:1004-1049 | The atomic add at the end of a task keeps every timer row at its start value plus its tasks' durations modulo 2^64. |
| WorkQueue.DriverServes | lib/SchedWorkQueue.cpp:368-448 | Every complete run, stated over what the driver reads at its entry: with the slots armed, a one-dimensional grid and num_tasks positive, tickets serve num_tasks ids once each whatever the number of workers, and a cancel pool the smaller of num_tasks and the grid; any other launch serves one id a block. |
| WorkQueue.TaskAndRow | lib/SchedWorkQueue.cpp:377-436 | A static block keeps its other coordinates and is timed by its slot coordinate, which alone is remapped; a claimed id is remapped as a whole and timed in the row of the id the body runs as. |
| WorkQueue.WovenEqualsStock | lib/SchedWorkQueue.cpp:368-448 | On the path the driver picks (unarmed, multi-dimensional grid, num_tasks 0, ticket, CLC), with any order sound for the launch, stamped or unchecked, a complete woven run serves every task once and times it in its row; and if tasks write disjoint cells it leaves the memory a complete stock run leaves. |
| WorkQueue.LaunchValid | lib/SchedWorkQueue.cpp:368-423 | On every path a launch is a permutation of its tasks if and only if there is no order, its stamp is neither 0 nor num_tasks, or the entries below num_tasks among those read shuffle within themselves; and then it hands out all its ids. |
| WorkQueue.InstalledOrderServed | runtime/sched_rt.h:206-213 | An order installed for num_tasks tiles, stamped for them or left unchecked as the host applications do, is sound for tickets and CLC, and raw id i runs task order[i]. |
| WorkQueue.StaticPerm | lib/SchedWorkQueue.cpp:377-408 | The static path over a grid of several planes permutes whole blocks if and only if the slot axis is permuted: the other coordinates are kept. |
| WorkQueue.StockRuns | lib/SchedWorkQueue.cpp:21-24 | The launch before weaving: block b runs task b, untimed. |
| WorkQueue.RowsIgnoreInterleaving | lib/SchedWeave.cpp:1037-1047 | Two complete runs in which each task took as long leave the same timer rows. |
| WorkQueue.ClcServesSmallerPrefix | lib/SchedWorkQueue.cpp:410-444 | A CLC launch hands out exactly the raw ids below the smaller of its grid and num_tasks, once each; which tiles those are is up to the order. |
| WorkQueue.ClcRunsOwnTilesIff | lib/SchedWorkQueue.cpp:305-343 | Its complete runs run each of its own tiles once, and no other tile, if and only if the grid is at most num_tasks and the tasks of the first grid raw ids permute the tiles of the grid. |
| Hardware.Gpu.constructor | runtime/sched_rt.h:257-263 | A launch starts with its blocks unlaunched and the ticket counter primed to their number. |
| Hardware.Gpu.LaunchBlock | lib/SchedWorkQueue.cpp:420-428 | Launching a block is the Start step: a surplus block exits, any other begins its own id. |
| Hardware.Gpu.WriteCell | lib/SchedWorkQueue.cpp:433-436 | One store of a body, in place, is the Write step. |
| Hardware.Gpu.FinishBody | lib/SchedWeave.cpp:1004-1049 | The end of a body, in place, is the Finish step: one atomic add to the timer row, then on to the claim or out. |
| Hardware.Gpu.TakeTicket | lib/SchedWorkQueue.cpp:212-230 | One atomic ticket in place is the Take step, with 32-bit wrap-around. |
| Hardware.Gpu.TryCancel | lib/SchedWorkQueue.cpp:244-293 | One steal attempt in place is the Take step: it cancels the victim or fails and ends the loop. |
| Hardware.Gpu.Advance | lib/SchedWorkQueue.cpp:410-444 | The next instruction of any live block, in place, is an enabled step of the machine and leaves exactly that step's state; a claim may steal any unlaunched block or fail. |
| Hardware.Gpu.RunToCompletion | lib/SchedWorkQueue.cpp:345-448 | Letting any ready block go next until none is left terminates, serves each id once, leaves the right timer rows, and for disjoint cells the reference memory. |
| CtaBroadcast.ThreadsAgree | lib/SchedWorkQueue.cpp:214-229 | With both barriers, in every interleaving of a block's threads, all threads run the same ids in claim order, leave the loop on the same claim, and never deadlock. |
| CtaBroadcast.RunInv | lib/SchedWorkQueue.cpp:214-229 | Every run of a block keeps its threads in one phase with the shared slot holding the last claim. |
| CtaBroadcast.SecondBarrierNeeded | lib/SchedWorkQueue.cpp:228-229 | Without the second barrier there is a run in which a thread reads the slot before the claim is stored. |
| CtaBroadcast.FirstBarrierNeeded | lib/SchedWorkQueue.cpp:214-218 | Without the first barrier there is a run in which a slow thread reads a later claim than its block served. |
| BlockThreads.ThreadsServeBlock | lib/SchedWorkQueue.cpp:410-444 | In any run of the driver in a claim mode, a block that has exited: every interleaving of its threads that issues that block's claims and ends makes each thread run exactly the ids the driver has the block serve; and there is such an interleaving. |
| BlockThreads.ClaimStores | lib/SchedWorkQueue.cpp:244-293 | A claim stores the id it got, or num_tasks when the hardware had none left, for its own block's threads only. |
| CtaRuns.ClaimsHaveRun | lib/SchedWorkQueue.cpp:214-229 | For any claims of which the last and only the last is past the range, the threads of a block have a run that issues just those and ends. |
| Remap.WeaveRemapBijective | lib/SchedWeave.cpp:444-526 | Through every order channel, with any table and stamp, a launch serves each of its tiles once if and only if it is unarmed, its stamp is neither 0 nor the grid, the entries below the grid shuffle within themselves, or the pointer is null and the grid within the table. |
| Remap.EveryGridIff | lib/SchedWeave.cpp:500-526 | A snapshot serves launches of every size if and only if its stamped part shuffles within itself or, unstamped, the table is its own inverse; any other unstamped order breaks some launch. |
| Remap.RemappedBijectiveIff | lib/SchedUtil.h:105-115 | A clamped table is a bijection on a grid exactly when the surviving entries differ and each names an entry that survives too, for every table, limit and grid. |
| Remap.WeaveAppliesOrder | lib/SchedWeave.cpp:444-526 | A launch within the table is served the table itself exactly when the stamp is 0 or its grid and no entry is past the grid; any other stamp gives the identity; through a pointer as directly. |
| Remap.DriverRemapBijective | lib/SchedWorkQueue.cpp:305-343 | The driver's remap, with any order, stamp and num_tasks and over any number of ids, is a bijection if and only if there is no order, its stamp is neither 0 nor num_tasks, or the entries below num_tasks shuffle within themselves. |
| Remap.DriverAppliesOrder | lib/SchedWorkQueue.cpp:305-343 | The claim loop serves the table itself exactly when the stamp is 0 or num_tasks and no entry is past num_tasks, and the identity for any other stamp. |
| Remap.NullPointerIsIdentityIff | lib/SchedWeave.cpp:455-500 | The null order pointer gives the identity exactly on grids no larger than the table, unless the stamp rejects the table anyway. |
| Remap.UncheckedRemapSafeIff | lib/SchedUtil.h:105-115 | With order_size 0 the per-entry clamp alone keeps every order of size k bijective exactly when k does not exceed the grid, or the grid is a single block. |
| Remap.UncheckedPrefixOk | lib/SchedUtil.h:105-115 | An unchecked order of size k with an identity tail is a bijection on every grid that holds it. |
| Remap.DisarmedDriverIsIdentity | lib/SchedWorkQueue.cpp:326-335 | With num_tasks 0 the driver serves raw ids unmapped, for every table and stamp. |
| Remap.StockDriverBijectiveIff | lib/SchedWorkQueue.cpp:394-408 | The driver's static path with a valid order stamped and num_tasks nt is a bijection for every such table exactly when the grid is nt, or empty, or larger with the table ending at nt. |
| Remap.DriverIgnoresDeviceOrderIff | python/sched_rt.py:333-346 | With the order in a device tensor the driver still reads the arena, whose first two words are the tensor's address: it serves the identity exactly when both halves miss num_tasks or hit their own index, or the stamp fails. |
| Remap.AddressWordsBijectiveIff | python/sched_rt.py:333-346 | Whatever the address, stamp and num_tasks, the claim loop over those two words serves every id once if and only if num_tasks is at most 1, or the stamp fails, or each half misses num_tasks or hits its own index, or the two halves are exactly 1 and 0. |
| ServingOrder.EverySnapshotServesAll | python/sched_sglang_plugin.py:148-304 | After any run of hooked steps, empty installs included: a launch of a given size is served bijectively if and only if the published order is stamped or shuffles that many tiles among themselves; launches of all sizes are if and only if it is stamped or its own inverse; and the claim loop is, if and only if the order is on the host channel or the words of the device tensor's address are harmless. |
| ServingOrder.OrderStep | python/sched_sglang_plugin.py:215-304 | After a step launches of every size are served if and only if it is not an empty batch installing over a table that is not its own inverse, and they were served before it or it puts a whole new order in place. |
| ServingHooks.BatchDecides | python/sched_sglang_plugin.py:148-304 | In terms of the step count, R and the batch: a costed batch on a cadence is armed (always, or on auto with 0 < R < tiles and a hot tail), one wave (R known and at least its tiles), or queued. Armed, or queued after the last event fired, its order is at the front of the table, stamped for its tiles, the rest untouched; in one wave none is in force; otherwise the order stays. num_tasks is its tiles when armed, else 0; the timer is on exactly in a probe step. |
| ServingHooks.BatchSkipped | python/sched_sglang_plugin.py:148-190 | Any other step leaves the plane alone: off the cadences it counts and disarms the probe flag; without slots or with too many tiles it only counts; with tiles but no requests it has also read out a fired probe and looked R up. |
| ServingHooks.ProbeClears | python/sched_sglang_plugin.py:302-303 | A probe step clears the timer rows, behind the stream on the device channel and at once on the host channel, and no other step does. |
| ServingOrder.PlannedStep | python/sched_sglang_plugin.py:215-302 | A planned step publishes the batch's order stamped for it when it installs, the neutral order when it retires one, and leaves both alone otherwise; num_tasks is on exactly when it arms, the timer exactly when it probes, and the binding is its own batch's. |
| ServingOrder.OrderRun | python/sched_sglang_plugin.py:148-343 | Every run keeps: the stamp is the recorded order size, an unrecorded order is neutral, a stamped order permutes that many tiles, and claims are armed only for the stamped count; and launches of every size stay served unless an empty batch installs over a table that is not its own inverse. |
| ServingOrder.DecideOrder | python/sched_sglang_plugin.py:235-283 | Arm, one-wave retire and queued install each keep that invariant, and launches of every size are served afterwards by the same if and only if. |
| ServingOrder.EmptyInstallBreaks | python/sched_rt.py:382-395 | A concrete run: a batch of three tiles, then an empty one whose install stamps 0; a launch of two then serves tile 1 twice. |
| ServingGate.EveryLaunchBijective | python/sched_sglang_plugin.py:256-283 | With the claim loop off and R unknown, every launch of every hooked run, although its blocks read table and stamp one by one and later batches begin while it runs, serves what one snapshot assigns, and each of its tiles once if and only if that snapshot is stamped or shuffles the grid's tiles among themselves; always so when no empty batch installs over a table that is not its own inverse. |
| ServingGate.UnhookedBreaks | python/sched_sglang_plugin.py:274-283 | A run with a launch outside any hooked batch, during which the next batch installs its order: both blocks of the launch serve tile 1. |
| ServingGate.NoWriteInFlight | python/sched_sglang_plugin.py:274-283 | In any reachable state of such a run no step changes the stamp while a launch is queued or running, nor the table while one is running. |
| ServingGate.GateStep | python/sched_sglang_plugin.py:274-330 | A step keeps: the last event covers all unfinished launches, no table copy is queued behind a launch, and all started blocks of the running launch read the present table and stamp. |
| ServingLaunch.PlannedLaunchEqualsStock | python/sched_sglang_plugin.py:235-292 | After any planned step, armed or not, empty installs before it or not, a launch of that step's tiles over any number of planes serves every tile once on whichever driver path it takes, and for disjoint cells computes the stock memory. |
| ServingLaunch.PlannedLaunchValid | python/sched_sglang_plugin.py:235-292 | That launch is a permutation of its tiles, so the driver has complete runs of it. |
| ServingLaunch.StaleArmRunsOwnTilesIff | python/sched_sglang_plugin.py:162-168 | Host order channel: in every run an off-cadence step leaves the plane armed for the k tiles of the last planned batch, stamped k; a CLC launch of any size then runs each of its own tiles once, and no other, if and only if it has k tiles, or fewer and the stale order permutes its tiles among the first raw ids. |
| ServingLaunch.StaleArmMissesTiles | python/sched_sglang_plugin.py:162-168 | In the plane a concrete run leaves armed for three tiles, every launch of two runs tile 2, outside its grid, and never its tile 0, and every launch of four never runs its tile 3. |
| ServingLaunch.StaleState | python/sched_sglang_plugin.py:162-168 | That run: a planned batch of three tiles with its ends swapped, then an off-cadence batch. |
| ServingFolds.FoldIsItsProbe | python/sched_sglang_plugin.py:317-376 | Device channel: in every run each fold holds exactly the samples of its own probe step's launches, none foreign and none cleared unread, under the binding of that very batch, and the charges add up to the folded rows. |
| ServingFolds.SampledIffOnAtStart | lib/SchedWeave.cpp:1004-1049 | Whatever hooks, pushes and other blocks do between a block's start and its end, it adds a sample if and only if the flag was on when it started and its task has a row; the sample is its own cycles, under its own step. So a probe's block that starts after the end-of-batch push adds none. |
| ServingProbe.ProbeStep | python/sched_sglang_plugin.py:161-301 | Every step keeps the probe invariant: at most one live probe, its clear ahead of its launches in the stream, the flag off for everybody else, and the rows equal to its samples. |
| ServingProbe.ConsumeStep | python/sched_sglang_plugin.py:345-376 | Consuming a fired probe records exactly the samples of the pending step. |
| ServingProbe.EndStep | python/sched_sglang_plugin.py:317-343 | The end of a batch keeps the invariant: the event covers the probe's launches and the flag goes off. |
| ServingFolds.OnceStep | python/sched_sglang_plugin.py:162-172 | On either channel a step keeps each probe folded at most once, except exactly when the hook consumes it, then gives up on a batch whose tiles have no request, with the armed flag left up by a step without slots. |
| ServingFolds.OnceRun | python/sched_sglang_plugin.py:162-172 | On either channel, a run without such a give-up folds no step twice. |
| ServingFolds.RefoldHappens | python/sched_sglang_plugin.py:162-172 | After any such give-up there is a continuation in which the same step is folded a second time. |
| ServingFolds.GiveUpReachable | python/sched_sglang_plugin.py:162-172 | A run from the initial state that reaches the give-up and ends with two folds of step 0. |
| ServingHost.HostProbeExactIff | python/sched_rt.py:446-451 | Host-mapped channel, at the begin of a probe in any reachable state: every fold of that probe in every continuation holds exactly its own step's samples, if and only if no launch left in the stream has a block with a timer row that is yet to start or is running with the flag latched on. |
| ServingHost.PollutedFold | python/sched_rt.py:446-451 | If there is such a block, wherever its launch is in the stream, some continuation folds its cycles into the probe. |
| ServingHost.CleanRun | python/sched_sglang_plugin.py:317-376 | If there is none, every continuation keeps the probe's rows equal to its own samples until they are folded. |
| Serving.RowHolds | lib/SchedWeave.cpp:1037-1047 | A timer row holds the cycles of the samples taken on it, and of no other, modulo 2^64. |
| ProbeFold.FoldConserves | python/sched_sglang_plugin.py:359-376 | For any tile-to-request map, in range or not, the per-request totals add up to the folded rows. |
| ProbeFold.RequestGetsItsTiles | python/sched_sglang_plugin.py:359-374 | Each request is charged the sum of the folded rows whose map entry is that request, an entry below 0 counting for the first request and one past the batch for the last; without a map it is charged its own row. |
| ProbeFold.TileChargesItsRequest | python/sched_sglang_plugin.py:365-374 | More cycles on one tile are charged, all of them, to the request its map entry names, or the first or last if it is outside the batch, and to no other. |
| ProbeFold.FoldRows | python/sched_sglang_plugin.py:359-374 | The in-place scatter gives each request the cycles of its own tiles, for split and unsplit batches. |
| ServingPlugin.Plugin.OnBatchBegin | python/sched_sglang_plugin.py:148-304 | The begin hook, field by field, is the Begin transition, early exits included. |
| ServingPlugin.Plugin.OnBatchEnd | python/sched_sglang_plugin.py:317-343 | The end hook is the End transition. |
| ServingPlugin.Plugin.Enforce | python/sched_sglang_plugin.py:235-283 | The arm, retire and queued branches in place are the Decide transition. |
| ServingPlugin.Plugin.PlanBatch | python/sched_sglang_plugin.py:215-302 | The planned part of the hook in place: timer flag, decision, push, clear, binding. |
| ServingPlugin.Plugin.ConsumeProbe | python/sched_sglang_plugin.py:345-376 | The probe readout in place is the Consume transition. |
| ServingPlugin.Plugin.InstallOrder | python/sched_rt.py:389-394 | Table first, stamp second, and the count remembered. |
| Shed.CappedIsTruncationIff | lib/SchedWeave.cpp:585-702 | With a budget of 1 to 2^16 - 1, the masked contraction equals the contraction of the first min(tau, trips) terms for all operands if and only if there are at most 2^32 trips. |
| Shed.UncappedIsOriginalIff | lib/SchedWeave.cpp:585-622 | For every budget, when the header is unarmed, the task has no row, or the budget is 0, the masked loop is the original loop for all operands if and only if it runs fewer than 2^32 times. |
| Shed.ContractLoop | lib/SchedWeave.cpp:685-702 | The woven loop computes the masked contraction, which up to 2^32 trips is the truncated one. |
| Shed.ContractTerm | lib/SchedWeave.cpp:685-702 | Changing one weight changes a contraction by that term's value times the change, and zero weights give zero. |
| Shed.SoftmaxMaskNeutral | lib/SchedWeave.cpp:819-860 | A score of minus infinity leaves the running max, sum and accumulator of the online softmax as they were. |
| Shed.ShedIsTruncatedSoftmax | lib/SchedWeave.cpp:652-683 | Over any number of pages the masked fold ends in the same max, sum and accumulator as the fold over only the kept tokens. |
| Shed.RunIsSoftmax | python/kernels/paged_softmax.cu:16-45 | acc / l of the online fold is the closed-form softmax average of the tokens folded, for any positive function with the additive law. |
| Shed.UncappedSoftmaxIsOriginal | lib/SchedWeave.cpp:585-622 | With no cap the masked kernel is the unmasked one, token for token. |
| Shed.Attention | python/kernels/paged_softmax.cu:14-45 | The masked kernel's nested loops return the softmax average over the first tau tokens of each page for an armed task with a row and a budget, and over all tokens of all pages (each under 2^32) for any other; nothing when there are none. |
| OrderBuilders.RegionPlacement | python/sched_rt.py:597-609 | The region-aware order is a permutation in which even prefix slots descend and cost at least every suffix slot, which cost at least every odd prefix slot; the odd ones ascend and the suffix descends. |
| OrderBuilders.FillRegion | python/sched_rt.py:599-609 | The strided fills and slices give each slot the rank that placement needs. |
| OrderBuilders.RegionOrder | python/sched_rt.py:597-609 | The region branch returns such a permutation for every cost vector and tie-breaking. |
| OrderBuilders.GroupedPlacement | python/sched_rt.py:558-578 | The grouped order is a permutation; blocks stay contiguous and ascending, and the plain sum of the costs of a block's tiles does not increase along it. |
| OrderBuilders.BlockCostIsTotal | python/sched_rt.py:571-575 | The aggregate a block is ranked by is the sum of the slice of costs it covers, padding adding nothing. |
| OrderBuilders.GroupedMembers | python/sched_rt.py:569-578 | Dropping the padding slots leaves exactly the tiles of the listed blocks, each once. |
| OrderBuilders.BuildOrder | python/sched_rt.py:581-609 | Every branch of the builder returns a permutation of the tiles with that branch's placement. |
| ExpertCap.WithinIsArrivalRank | python/sched_moe_hook.py:53-62 | Position in the stable sort minus the group start is the number of earlier slots that chose the same expert. |
| ExpertCap.CapIsGreedy | python/sched_moe_hook.py:21-65 | The cap keeps exactly what the arrival-order greedy scan keeps, and each expert keeps min(count, C). |
| ExpertCap.DroppedIsExcess | python/sched_moe_hook.py:60-64 | The slots dropped in all are the sum over experts of max(0, count - C). |
| ExpertCap.CapIdempotentAndMonotone | python/sched_moe_hook.py:44-65 | Capping again changes nothing, capping at a larger C first changes nothing, and a larger C only keeps more. |
| ExpertCap.CapacityTruncates | python/sched_moe_hook.py:46 | C is the mean load times the factor with its fraction cut off, on either side of zero. |
| ExpertCap.OverloadedIffDropped | python/sched_moe_hook.py:60-62 | An expert has more than C slots if and only if one of its slots is dropped. |
| ExpertCap.GroupCounts | python/sched_moe_hook.py:56-57 | The scatter-add buffer holds each expert's count. |
| ExpertCap.GroupStarts | python/sched_moe_hook.py:58-59 | The shifted running sum holds each group's start. |
| ExpertCap.Overflows | python/sched_moe_hook.py:53-62 | The sorted, ranked and scattered-back mask marks a slot exactly when at least C earlier slots chose its expert. |
| ExpertCap.MoeExpertCap | python/sched_moe_hook.py:44-65 | The whole function: unchanged under the minimum capacity, otherwise the masked weights and, when asked for, the drop count. |
| LeastSquares.DeterminantSign | python/sched_controller.py:50-52 | After any samples n sxx - sx^2 is never negative, and zero exactly when all x are equal. |
| LeastSquares.FitOptimalIff | python/sched_controller.py:46-55 | The returned pair has the least squared error of all lines over the whole history if and only if the history is empty, has two different x, has a positive x sum, or balances the (1, 0) fallback. |
| LeastSquares.SseShift | python/sched_controller.py:46-55 | How the squared error changes when a line moves: the normal equations and a square. |
| LeastSquares.LineRecovered | python/sched_controller.py:46-55 | Samples on a line, with at least two different x, give exactly that line back. |
| LeastSquares.Fit.Add | python/sched_controller.py:39-44 | One sample in place extends the history the running sums stand for. |
| LeastSquares.Fit.GetCoeffs | python/sched_controller.py:46-55 | The coefficients from the running sums, and when they are optimal. |
| CompletionTime.AscendingMinimises | python/sched_controller.py:150-164 | No permutation has a smaller total completion time than an ascending one. |
| CompletionTime.DescendingMaximises | python/sched_controller.py:150-164 | No permutation has a larger total completion time than a descending one. |
| CompletionTime.SmallestFirst | python/sched_controller.py:150-164 | The first k of an ascending order finish no later than any other k tasks. |
| CompletionTime.ComputeSpan | python/sched_controller.py:150-164 | One pass with two accumulators is the sum of completion times. |
| Controller.SrptWithinDeadband | python/sched_controller.py:129-147 | Under srpt the order in force has a span within the dead-band of every permutation's. |
| Controller.SrptBelowZero | python/sched_controller.py:129-147 | With a negative dead-band the srpt order in force has the least span of all permutations. |
| Controller.LptNeverReplaces | python/sched_controller.py:142-145 | Under lpt with a positive dead-band an order of the right length is never replaced, whatever the costs. |
| Controller.LptRunFrozen | python/sched_controller.py:122-147 | Over a whole run of same-length lpt batches the first order stays. |
| Controller.LptFrozenIff | python/sched_controller.py:142-147 | All such runs keep their first order if and only if the dead-band is positive; otherwise equal costs already swap it. |
| Controller.UnmeasuredUntouched | python/sched_controller.py:70-78 | A request without positive measured cycles keeps its residual. |
| Controller.KeysFail | python/sched_controller.py:126-139 | Which calls fail, and how: unknown policies, edf without deadlines, edf with deadlines or elapsed times shorter than the batch. |
| Controller.DampedIff | python/sched_controller.py:141-145 | An order of the right length stays if and only if the proposal gains less than the dead-band times its span, taken as at least 1e-9. |
| Controller.PolicyMeaning | python/sched_controller.py:128-139 | Sorting by its keys makes lpt descend and srpt ascend in predicted cost, and edf ascend in deadline minus elapsed minus predicted time, a missing elapsed list counting as zeros. |
| Controller.PredictsLine | python/sched_controller.py:96-101 | Once requests have cost a k + b cycles for k tokens, a request of x tokens is predicted a x + b plus its residual, or 0 if that is negative. |
| Controller.ResidualMoves | python/sched_controller.py:70-78 | A measurement shrinks the gap between a request's residual, 0 at first, and the error of the fit that already includes it by the factor 1 - ewma, and changes no other residual. |
| Controller.SamplesGrow | python/sched_controller.py:73-75 | Only measurements with positive cycles become samples, in order. |
| Controller.ControlPlane.PredictOne | python/sched_controller.py:96-101 | A prediction is the fitted line plus the residual, clamped at zero. |
| Controller.ControlPlane.Observe | python/sched_controller.py:70-78 | Folding a step in place: measured requests enter the history, and each residual is smoothed against a prediction that already includes its own sample. |
| Controller.ControlPlane.Propose | python/sched_controller.py:126-139 | The proposal is the stable sort of the policy's keys; an unknown policy, missing or short deadlines are errors. |
| Controller.ControlPlane.Order | python/sched_controller.py:122-147 | For every dead-band the damped order is a permutation of the batch, the proposal or the kept one by the dead-band test; near-optimal under srpt (optimal when the dead-band is negative), frozen under lpt with a positive dead-band, untouched on errors. |
| Sorting.StableSort | python/sched_controller.py:128-138 | Sorting indices by key is a permutation, ascending, ties by index. |
| ListScheduling.ClaimsWithinFactor | THEORY.md:239-244 | For every order table, all costs and every ticket-ordered run on m workers, m makespans are at most 2m - 1 makespans of any assignment of the tasks. |
| ListScheduling.TicketsAreGreedy | lib/SchedWorkQueue.cpp:425-444 | If raw ids are claimed in time order and nobody gives up before the last claim, every claim is by a worker free no later than any other. |
| ListScheduling.TailBound | THEORY.md:245-246 | m makespans are at most the total work plus m - 1 times the task that ends last. |
| ListScheduling.LastStartedIsNotEnough | THEORY.md:245-246 | A concrete schedule in which the tail bound fails for the task started last, so the bound belongs to the task that ends last. |
| ListScheduling.LastStartedIff | THEORY.md:245-246 | With cost x for the task started last and y for another that ends last, the tail bound with x holds of every such ticket-ordered schedule on m workers if and only if m x is at least (m - 1) y. |
| TimedRuns.TimedIsTicketOrder | lib/SchedWorkQueue.cpp:410-444 | Every complete run of the driver in ticket mode in which bodies take their cost and blocks claim when free, ties in any order, is a ticket-ordered schedule, and each worker ends at its load. |
| TimedRuns.TimedRunWithinFactor | THEORY.md:239-244 | So for every order table and all costs, m times the length of any such run on m workers is at most 2m - 1 makespans of any assignment of the tasks. |
| TimedRuns.TimedRunExists | lib/SchedWorkQueue.cpp:410-444 | Every ticket launch has a complete timed run, whatever its tasks cost. |
| ListScheduling.MakespanFloor | THEORY.md:239-244 | No assignment finishes before the average load nor before any of its tasks. |
| AddressForms.Search | lib/SchedWeave.cpp:86-148 | The worklist search ends on any graph, cyclic or not; a yes has a walk through transparent values to a target, and when the root's own cone has fewer operands than the step limit a no means there is none. |
| AddressForms.SearchExact | lib/SchedWeave.cpp:86-148 | A yes is always right. The search runs dry if and only if there is no target and some set closed under the operands of transparent values, root included, has fewer operands than the step limit; within that limit the answer is exact, however large the rest of the function. |
| AddressForms.FoundIsWalk | lib/SchedWeave.cpp:90-117 | From any state of the search a hit is reachable from the root. |
| AddressForms.DrainedIsExhaustive | lib/SchedWeave.cpp:90-117 | A search that drains its list has seen every value the root leads to. |
| AddressForms.EnoughSteps | lib/SchedWeave.cpp:90-117 | Within any set closed under the operands of transparent values, steps taken plus list length plus unseen operands bound the steps a search needs. |
| AddressForms.WideAddressMissed | lib/SchedWeave.cpp:88-90 | An address with a loaded first operand and n constant ones is found out for n below 255; from 255 on it exhausts the limit and is missed. |
| AddressForms.LooksThrough | lib/SchedWeave.cpp:96-148 | The loaded-index search looks through address arithmetic, phis, binary operators, casts, selects and unary operators for a load; the slot search through the same but unary operators for the slot coordinate, never through a load. |
| AddressForms.FindSites | lib/SchedWeave.cpp:163-255 | The two passes return the first four strided gathers, or, only when no innermost load was seen to gather, at most two slot-coordinate streams. |
| AddressForms.ScanIndexed | lib/SchedWeave.cpp:197-221 | Pass 1 over one loop: strided gathers up to the cap, and whether any gather was seen. |
| AddressForms.ScanSlotted | lib/SchedWeave.cpp:231-254 | Pass 2 over one loop: its first strided load that reaches the slot coordinate. |
| AddressForms.IndexSitesAre | lib/SchedWeave.cpp:197-221 | The indexed sites are exactly the loads with a nonzero stride whose search finds a loaded index. |
| AddressForms.ArithmeticIsPositive | lib/SchedWeave.cpp:223-255 | In a kernel classed arithmetic no innermost load whose address cone is within the step limit has a loaded index, and each of its sites has a nonzero stride and depends on the slot coordinate. |
| ArenaPlane.KernelReadsLast | python/sched_rt.py:397-443 | After any setter calls and a push a kernel reads the last value set for num_tasks, order_size, lambda, the timer bit and every row, and the push touches no order entry, timer row or ticket. |
| ArenaPlane.MirrorHoldsLast | python/sched_rt.py:397-434 | The mirror holds the last value set for each of them, and the other flag bits never change. |
| ArenaPlane.TornPush | python/sched_rt.py:436-443 | Between the two writes of a push a kernel reads the old generation and already every other new field. |
| ArenaPlane.PushWrites | python/sched_rt.py:436-443 | Body first and generation last is one write of the whole control block. |
| Arena.WindowsApartIff | python/sched_rt.py:81-89 | The order, ctrl, timer and queue windows fit beside each other exactly up to 32764 tasks, so the limit of 16384 is safe. |
| Arena.KernelOffsets | lib/SchedUtil.h:96-119 | What a kernel reads, at the literal offsets of the four windows, of the header fields and of the row fields. |
| Arena.HeaderWord | lib/SchedUtil.h:96-119 | Writing a header word changes that field and no other field or row, read back at the kernel's offsets. |
| Arena.RowWrite | python/sched_rt.py:422-426 | Writing a row changes that row's q, tau and hint and nothing else. |
| Arena.RowKeepsHeaderIff | python/sched_rt.py:422-426 | A row write that is accepted leaves the header alone, whatever it writes, exactly when its index is not -1 to -4 nor one that wraps into the header from the end. |
| Arena.RowOffsetIs | python/sched_rt.py:422-426 | The indices a row write accepts are -8 - n to n - 1; those below -4 land that far from the end, the others at 32 + 8 i. |
| Arena.CtrlWrite | python/sched_rt.py:436-443 | Writing the ctrl window is invisible in the order, timer and queue windows. |
| Arena.OrderWrite | python/sched_rt.py:366-377 | An order write changes a prefix of the table and nothing else in the arena. |
| Arena.TimerWrite | python/sched_rt.py:446-450 | Clearing the timer rows changes nothing else in the arena. |
| Arena.QueueWrite | python/sched_rt.py:470-471 | Priming the ticket counter changes nothing else in the arena. |
| Bytes.RoundTrip | python/sched_rt.py:382-387 | Packing a word little-endian and reading it back gives the word. |
| Bytes.LowestFirst | python/sched_rt.py:382-387 | Byte i of a packed word is its i-th lowest. |
| ArenaPlane.Plane.SetNumTasks | python/sched_rt.py:406-411 | In place: the field, or an error and no change when the value does not fit 32 bits. |
| ArenaPlane.Plane.SetOrderSize | python/sched_rt.py:382-387 | In place: the stamp, or an error and no change. |
| ArenaPlane.Plane.SetLambda | python/sched_rt.py:397-404 | In place: the four packed floats. |
| ArenaPlane.Plane.SetTimerEnabled | python/sched_rt.py:413-420 | In place: bit 0 of flags, the other bits kept. |
| ArenaPlane.Plane.SetRow | python/sched_rt.py:422-426 | In place: the row masked to its widths; out of range is an error; a negative index lands where Python puts it. |
| ArenaPlane.Plane.PushCtrl | python/sched_rt.py:436-443 | In place: the mirror published with the next generation, which fails once it no longer fits its word. |
| ArenaPlane.Plane.SetOrder | python/sched_rt.py:366-377 | In place: at most N entries land. |
| ArenaPlane.Plane.ClearTimerRows | python/sched_rt.py:446-450 | In place: all rows zero. |
| ArenaPlane.Plane.ResetQueue | python/sched_rt.py:470-471 | In place: the counter, or an error when the value does not fit a signed word. |

## Left out

Statements that are weaker than one might want, and what they assume:

- WovenEqualsStock: one frozen snapshot of table, order_size and num_tasks a launch; x is the slot axis, which is the axis the CLC decode reads; the driver's order is in the arena. An armed order with a null control block is excluded: on the stock path the source then loads num_tasks through the null pointer (lib/SchedWorkQueue.cpp:326-331), which has no defined outcome. Grid dimensions are at least 1, and memory is compared when tasks write disjoint cells.
- CompleteRun: the memory conclusion is for tasks that write disjoint cells from read-only input, as the stock kernel must for its own result to be determined; timer rows start as 64-bit words.
- EverySnapshotServesAll: speaks of the snapshot launches see once queued copies have landed; on the arm and retire branches a write may land under a running launch, and no claim is made about that launch.
- EveryLaunchBijective: for the configuration in which every install is event-gated, and for launches that come from hooked batches; a launch from a batch the hooks do not see is not covered by the event, and can break (UnhookedBreaks).
- PlannedLaunchEqualsStock: for the host channel of the order table, which is the one the driver reads; memory when tasks write disjoint cells.
- StaleArmRunsOwnTilesIff: for the host channel of the order table; on the device channel the claim loop reads address words, which AddressWordsBijectiveIff covers.
- FoldIsItsProbe: for the device channel, HostProbeExactIff being the statement for the other; says nothing about blocks that latched the flag off, which add no sample.
- FoldConserves: sums are unbounded naturals; the 64-bit wrap of a per-request total is not modelled.
- TimedRunWithinFactor: a body takes exactly its task's cost and a claim takes no time, so contention on the counter costs nothing; W + N fits in 2^32.
- ShedIsTruncatedSoftmax: arithmetic over the reals; minus infinity is a separate value, and the NaN of inf - inf is modelled only as undefined.
- FitOptimalIff: sums over the reals, without rounding.
- ThreadsServeBlock: for the two claim modes, and a block that has exited; a launch that is still running has its blocks' claims so far.
- FindSites: innermost loops come as a list of their loads with constant strides; collecting them from the loop nest and the stride analysis itself are not modelled.
- KernelReadsLast: row indices are naturals; negative ones are covered by RowKeepsHeaderIff.

Parts of the repository without a model:

- LLVM mechanics: instruction building, dominance repair, scalar evolution, inline assembly text, plugin registration. The meaning of the emitted code is modelled instead.
- Prefetch, discard, policy hints and programmatic dependent launch: they change no modelled state, and launches in a stream run one after the other.
- Detection of softmax scores and cp.async streams: pattern matching on instructions.
- The congestion index and the uncertainty statistic: the arming decision takes the comparison with its thresholds as an input.
- CUDA and OS calls, occupancy queries, memory mapping: the lookup of R is an input.
- Reading the tile map out of a plan buffer: the map is an input, any map.
- Device-pointer words of the two indirect channels, beyond what the driver makes of the order one.
- The JIT cache key, the compiler shim, header patching, the manifest and the load generator.
- The observe mode of the expert cap and its hook installation.
- Creation of the plane by the first batch: it exists from the start, as the scheduler-init hook arranges.
