# Verified model of hestan's builder, deliveries and schedulers

hestan builds assets incrementally. It records, with every value, the fingerprints the value was made from; it decides from those records what is stale, plans the smallest set of ops and partition keys to run, and runs several such builds side by side over one store. Around that sit a durable queue of notifications with leases and fencing, a chunker that backfills key ranges, and an election for the one process that may decide. This project models those parts and proves what they promise, over every input and over whole runs.

## What is modelled

- **The op graph** (`Graph.dfy`, `Stages.dfy`): Kahn's ordering with its cycle witness, the downstream walk, and the stages `explain` prints, as the loops over arrays, stacks and sets they are.
- **The asset registry** (`Assets.dfy`, `Provenance.dfy`): assets in dependency order, ops sorted by the first asset each makes, what a partition mapping reads, and the forward pass that says where every asset came from.
- **The incremental builder** (`Freshness.dfy`, `Builds.dfy`, `Memo.dfy`, `MemoRuns.dfy`, `Windows.dfy`, `Plan.dfy`, `Demand.dfy`, `Execution.dfy`, `Convergence.dfy`, `CatchUp.dfy`, `Stepwise.dfy`, `Claims.dfy`). The store is a map from a cell, an asset and perhaps a key, to a fingerprint, the fingerprints recorded as consumed, and a value. A body is a deterministic function of its key, its inputs and the outside data its sources' fingerprints stand for. Fingerprints are assumed only to tell two values of one cell apart. Builds read their inputs a row at a time, so other builds may commit between one read and the next, and they look up each dep's keys anew to list what to read, to note fingerprints and to hand inputs over, so key sets may change at any of those moments. That no key set takes back a key it dropped is proved of the sets a clock makes (`Windows.ClockedIsSteady`) and asked for only where a theorem needs it.
- **Where its promises stop** (`Limits.dfy`, `Examples.dfy`, `Rollups.dfy`): reads that can never be fresh, what a default build's limit leaves behind, and for a promise that fails the input it fails on. Where a promise fails in general, the theorem beside it says exactly when it holds.
- **Durable deliveries** (`Deliveries.dfy`, `DeliveryInvariant.dfy`, `DeliveryRuns.dfy`, `DeliveryFields.dfy`, `DeliveryStore.dfy`): the four tables, each transaction as one step and column by column, one invariant, theorems over whole runs, and a class whose methods carry the transactions out statement by statement. The receiver's answer, the jittered wait and the database clock are parameters; the clock is assumed not to run backwards and tokens never to repeat.
- **Backfills** (`Backfills.dfy`, `BackfillRuns.dfy`) and **the deciding lease** (`Leases.dfy`, `Deciders.dfy`): the chunker and the lease row as classes, and as machines over any number of passes and processes. Handling one record is a read, a look at its last run, a launch and a recording, at four moments or fewer when it is lost on the way. The lease is proved safe with no assumption about clocks at all; only how long a belief can outlast its row is reckoned on one clock that does not run backwards.

Three statements in the repository are not what its code does, and the model follows the code. `src/graph.rs:61` says the root is left out of its own downstream; that holds exactly when it is on no cycle (`Graph.RootExcludedIffAcyclic`). `src/decider.rs:193-199` says a process stops believing at the moment the row runs out; a belief is only cleared at a turn and reckoned from when an answer arrived, so it can outlast the row by the answer's latency and the wait for the next turn (`Leases.BeliefOutlastsRowIff`, `Leases.OverrunBounded`, `Deciders.ErrorKeepsBelief`). `src/backfill.rs:94-96` says no chunk follows a cancel; one whose record was read before the cancel still does, and nothing else (`BackfillRuns.ClosedForGoodIff`, `BackfillRuns.LateChunksBounded`).

A key read through an offset mapping is recorded as a bare string (`src/asset.rs:2004-2009`) and looked up as a field of an object (`src/asset.rs:2473-2477`), so a reader of one is never fresh (`Limits.FreshOffsetFindsNothing`).

## Model

| member | source | states |
|---|---|---|
| Graph.TopoOrder | src/graph.rs:5-59 | succeeds iff names are unique, deps known and the graph acyclic, and then gives the lexicographically least topological order by declaration index; the op named on a cycle lies on one |
| Graph.GreedyIsLeast | src/graph.rs:25-40 | taking the least ready op each time gives the least of all topological orders |
| Graph.TopologicalImpliesAcyclic | src/graph.rs:42-58 | a graph with a topological order has no cycle, so a complete drain is proof there was none |
| Graph.NameCycle | src/graph.rs:42-57 | from what Kahn left over, the walk always has an unfinished dep to take, ends, and stops on an op that is on a cycle |
| Graph.DownstreamThrough | src/graph.rs:71-95 | exactly the names a nonempty dependent path reaches with every node after the root accepted |
| Graph.Downstream | src/graph.rs:62-64 | exactly the transitive dependents of the root |
| Graph.RootExcludedIffAcyclic | src/graph.rs:61-64 | the root is missing from its own downstream iff it is on no cycle |
| Stages.Stage | src/cli.rs:4047-4070 | each op sits just above the deepest of its in-job deps, the stages hold them in the job's order, and none is empty |
| Stages.TopologicalIsJobOrder | src/cli.rs:4049-4051 | any topological order of distinct ops meets what the stages need |
| Stages.StagesPartition | src/cli.rs:4061-4069 | every op is in exactly one stage, once, and nothing else is |
| Stages.StageIsIndependent | src/cli.rs:4041-4046 | along any dependency path, however long, stages strictly rise, so no path joins two ops of one stage |
| Stages.DepthIsLeast | src/cli.rs:4052-4060 | no layering at all can put an op lower than its stage |
| Stages.StagesAreOptimal | src/cli.rs:4047-4070 | the number of stages is the length of the longest dependency chain, and no layering has fewer |
| Assets.New | src/asset.rs:1045-1246 | a registry exists iff the asset graph orders, every mapping is allowed for its pair and op names are clear; then assets are in the least topological order and ops are the declared ones, sorted |
| Assets.ProducerComesFirst | src/asset.rs:1229-1240 | the op making a dep comes strictly before every op reading it, even when ops make several assets |
| Assets.CheckPartitionDeps | src/asset.rs:1615-1664 | passes iff an unpartitioned dep is read whole and an unpartitioned reader of a partitioned dep takes every key |
| Assets.MappedWithin | src/partition.rs:425-462 | a mapping other than identity reads only keys the dep holds and misses only keys it does not |
| Assets.ReadsSay | src/partition.rs:425-462 | mapping by mapping, what is read: the same key, every key held, the one key an offset away if held, or the window's keys that are held; and what is missing: the window's other keys but those not due |
| Assets.HeldIff | src/partition.rs:433-451 | a key of a window is missing iff the dep does not hold it and it is not after the last one held |
| Assets.HeldInOrder | src/partition.rs:433-451 | what is read and what is missing come in the window's order, key by key |
| Assets.AfterIff | src/partition.rs:443-448 | later than a key means longer than it, or greater at the first place where they differ |
| Provenance.WalkProvenance | src/asset.rs:1457-1481 | a label is in an asset's provenance iff some source under that label is the asset or has it downstream |
| Provenance.OriginatesSays | src/asset.rs:60-75 | a source's label is its declared group, else what its name has before the first slash, else its name |
| Provenance.LastStep | src/asset.rs:1347-1354 | downstream of a root is reading it or reading something downstream of it |
| Freshness.AllStaleness | src/asset.rs:2378-2403 | the one pass gives every asset the verdict the recursive definition gives, with its reasons; a partitioned asset is stale iff a key is |
| Freshness.OneStaleness | src/asset.rs:2417-2492 | one cell's verdict: unmaterialized, or one reason per dep that moved, naming the first key that did |
| Freshness.FreshIffConeHolds | src/asset.rs:2370-2492 | a cell is fresh iff every cell its reads reach is materialized, with nothing missing and every recorded fingerprint current |
| Freshness.FreshIffNoReason | src/asset.rs:2487-2491 | a materialized cell is fresh iff no dep gives a reason |
| Freshness.FreshSays | src/asset.rs:2417-2492 | a cell is fresh iff it is there and, wherever its verdict looks, there is a row of a key the dep has, itself fresh, with the fingerprint the cell recorded |
| Freshness.ReasonsSay | src/asset.rs:2444-2486 | a dep adds one reason iff a key looked at in it is not fresh, naming the first, what was consumed of it and what is there now |
| Builds.CaptureInputs | src/asset.rs:1753-1819 | the rows captured are exactly those at the keys the op reads; a replay keeps what its original saved, save what this run rebuilt |
| Builds.DepFingerprints | src/asset.rs:1985-2025 | what is recorded is the fingerprint at the one key read, or one per key of a set, from the captured rows |
| Builds.WithDepInputs | src/asset.rs:1922-1975 | a whole dep is handed over as its captured row's value, or null without one; one key as its row's value, and not at all without one; a set as an object of exactly the captured keys, each with its row's value |
| Builds.InputsHandedOver | src/asset.rs:1922-1975 | and so are the inputs every theorem is about |
| Builds.RecordedNotedDown | src/asset.rs:1985-2025 | what a row records of a dep is the captured fingerprint, or null, or an object of one per captured key |
| Builds.CapturedGathered | src/asset.rs:1753-1819 | the rows captured are the store's at the keys read; a replay has its original's at every cell the run has not rebuilt, and the rebuilt row at each it has |
| Builds.SplitOutput | src/asset.rs:2031-2075 | an output splits iff it names exactly the assets its op makes, each getting its own part; else the missing and extra names are reported |
| Builds.RunOp | src/asset.rs:2093-2177 | fingerprints and inputs come from one set of captured rows, cell by cell; every asset made is staged with its part of the output and those fingerprints, or nothing is |
| Builds.RunOpSays | src/asset.rs:2093-2177 | row by row: the body is run on what is handed over from the rows captured, and each asset's row has its part of the output, its own fingerprint and what was recorded of those rows |
| Memo.CleanEquation | src/asset.rs:2093-2177 | the from-scratch build is a fixed point: each derived cell is its op's output over the rest of it |
| Memo.CleanSays | src/asset.rs:2093-2177 | that is, its body run on what is handed over of the clean build, and its part of what that returns |
| Memo.InputsIff | src/asset.rs:1922-2025 | when every edge's recorded fingerprint is current, the inputs a body was given are those of a clean build iff nothing its row recorded has stopped being read |
| Memo.OutputAgrees | src/asset.rs:1922-2025 | and then, having been handed what was recorded, a body returns what it would over the clean build |
| Memo.HandedSameIff | src/asset.rs:2117-2134 | what is handed over at one reading of the key sets agrees with what was recorded at another iff no captured key enters or leaves what is read in between |
| Memo.GrowthHandsSame | src/asset.rs:2117-2134 | key sets that only grow from capture to recording to handing over never make the two differ |
| Memo.OrderedIsSame | src/asset.rs:2117-2134 | where dropped keys stay dropped, a row that recorded none of them was handed exactly what it recorded, whenever its key sets were read |
| Memo.FreshIsClean | src/asset.rs:2378-2492 | given honest lineage, fingerprints that tell values apart and dropped keys that stay dropped, a fresh cell holds its clean value once no row its reads reach recorded a key that is no longer read |
| Memo.GivenCleanIff | src/asset.rs:2378-2492 | with everything it reads clean, a fresh cell's body was given a clean build's inputs iff the captured keys handed over are those read now; and, iff no captured key came or went between noting and handing over, it was given what it recorded, and then the first is iff its row recorded no dropped key |
| MemoRuns.NextKeepsInv | src/asset.rs:1753-2177 | every step of every build, probe or replay, and any change of key sets at any moment of a build, keeps every row explained by one set of rows the store has held, noted at one reading of the key sets and handed over at a later one |
| MemoRuns.CaptureSays | src/asset.rs:1753-1819 | what a build captures is the rows it read; a replay's is what its original saved, at every cell but those its own run has rebuilt |
| MemoRuns.BodySays | src/asset.rs:2117-2134 | what it records and what it hands its body are both of the rows captured, at the key sets looked up for each |
| MemoRuns.CommitSays | src/asset.rs:2135-2177 | a commit writes one row for each asset of the op, with its part of the output, and no other cell |
| MemoRuns.MemoisedEqualsClean | src/asset.rs:2378-2492 | in every state of every interleaving in which no key set takes back a dropped key, a cell called fresh whose reads reach no row that recorded a dropped key holds what building from scratch would give |
| MemoRuns.DroppedKeyGivesOtherInputs | src/asset.rs:2117-2134 | in every reachable state, whatever key sets do, a fresh cell with clean reads has readings that explain its row, and was given a clean build's inputs iff the keys handed over are those read now; if it was handed what it recorded, iff it recorded no dropped key |
| Windows.KeysUntil | src/partition.rs:231-272 | a declared set is as declared; else one key for every unit begun, oldest first and ending with the current one, and of more than ten thousand the newest |
| Windows.LeftIsPassed | src/partition.rs:266-269 | under a clock that does not run backwards a key leaves its set only by growing too old, and for good |
| Windows.ClockedIsSteady | src/partition.rs:225-272 | so no key set such a clock makes ever takes back a key it dropped |
| Plan.Want | src/asset.rs:2766-2772 | exactly the targets and everything they descend from |
| Plan.Unheld | src/asset.rs:2621-2633 | nothing iff every window of the key is held whole but for keys not due; else the first key missing, of the first dep that misses one |
| Plan.BuildableIff | src/asset.rs:2621-2633 | a key is buildable iff every window on every dep is held whole but for keys after the dep's last |
| Plan.DefaultKeys | src/asset.rs:2600-2615 | the newest owed buildable keys in descending order of their characters, all of them unless the limit is met, and none left out later than one taken |
| Plan.KeyTargets | src/asset.rs:2643-2706 | each planned partitioned op is given exactly the buildable keys it starts from and those some planned consumer reads that are owed |
| Plan.DemandedIff | src/asset.rs:2667-2699 | a planned consumer without keys reads what it reads whole, and one with keys at each key it is given |
| Plan.SelectOps | src/asset.rs:2777-2785 | an op is planned iff something it makes is wanted and is a target or stale, each op once and in dependency order |
| Plan.SeedsFor | src/asset.rs:2564-2590 | a producer is seeded iff a planned op reads it and it is not planned, with what it holds; each partitioned op with its keys |
| Plan.SeedSays | src/asset.rs:2540-2562 | a seed is null for a source or a partitioned op, its one asset's stored value or null, or an object with each of its assets' |
| Plan.PlanPartitions | src/asset.rs:2734-2793 | a plan exists iff every target is a known derived asset and every named key is one its asset has, and then it is the plan described |
| Plan.PlanAll | src/asset.rs:2796-2819 | there is a plan iff something derived is stale, and it targets exactly what is |
| Plan.ClaimedBy | src/asset.rs:2841-2871 | the claim is exactly the cells running the plan writes |
| Demand.PlannedOrSeeded | src/asset.rs:2564-2590 | for every dep of every planned op its producer is planned or seeded, never both |
| Demand.UnplannedDepFresh | src/asset.rs:2777-2785 | a derived dep the plan leaves alone is fresh |
| Demand.UnplannedDepSeeded | src/asset.rs:2540-2590 | an unpartitioned one is seeded with exactly the value it holds |
| Demand.DemandClosed | src/asset.rs:2643-2706 | whatever a planned cell reads of a derived asset is planned, fresh, unbuildable, or a key its unplanned dep never had |
| Demand.DemandMinimal | src/asset.rs:2667-2699 | a planned key nobody asked for is owed, buildable, and read by a planned cell |
| Execution.RegistryHasOneWriter | src/asset.rs:2093-2177 | no two instances of any run write one cell |
| Execution.NeverStuck | src/asset.rs:2101-2107 | a run that is not over can always take a step: waiting never goes in a circle |
| Execution.StepsRunOut | src/asset.rs:2093-2177 | every step leaves one thing less to do, so no run goes on for ever |
| Execution.CompleteRun | src/asset.rs:2108-2177 | a finished run's rows recorded the fingerprints its inputs still have, and no other row moved |
| Execution.RecordedEdge | src/asset.rs:1985-2025 | what a build records is what a verdict looks up iff the key is one the dep has and not read through an offset |
| Execution.ConvergesIff | src/asset.rs:2417-2492 | one run leaves a whole region fresh iff everything it wrote is readable and nothing it left alone reads a written cell whose fingerprint moved |
| Execution.RunToEnd | src/asset.rs:2093-2177 | any set of instances has a complete run, whose rows can all come out with a fingerprint given beforehand |
| Execution.AlwaysConvergesIff | src/asset.rs:2417-2492 | told before the run: every complete run leaves a region fresh iff what it leaves alone is fresh already, what it writes is readable, and whatever reads a written cell is written too |
| Convergence.RunWritesItsClaims | src/asset.rs:2825-2871 | a finished run wrote every claimed cell, from its final inputs, and no other |
| Convergence.PlanConvergesIff | src/asset.rs:2734-2793 | every run of a plan leaves a region fresh iff what the plan does not claim is fresh already, what it claims is readable, and the readers of what it claims are claimed |
| Convergence.FreshPlannedIsTarget | src/asset.rs:2734-2793 | where the op makes one asset, the only fresh cells a plan builds are of the assets it was asked for |
| Convergence.TargetIsPlanned | src/asset.rs:2708-2716 | a target is always built, and a partitioned one at every named key that can be |
| Convergence.TargetConvergesIff | src/asset.rs:2734-2793 | every run of a plan for one target leaves its whole cone fresh iff no cell of the cone the plan leaves alone reads one it builds |
| Convergence.TargetConverges | src/asset.rs:2734-2793 | so it does wherever no op upstream of the target makes a second asset |
| Convergence.PlannerConverges | src/asset.rs:2734-2793 | what the planner returns for a cell has instances and a complete run, claims the cell, and converges on its cone under exactly that condition |
| Convergence.AllConvergesIff | src/asset.rs:2796-2819 | without partitions, every run of the plan for everything stale leaves every asset fresh iff every source is probed and whatever reads an asset to be rebuilt is rebuilt too |
| Convergence.AllConverges | src/asset.rs:2796-2819 | so it does with every source probed and no op making two assets |
| CatchUp.CatchUpIff | src/asset.rs:2796-2819 | with partitions, every run of the plan for everything stale leaves every cell there is fresh iff every source is probed, no stale key is left out, what is built is readable, and whatever reads a cell that is built is built too |
| CatchUp.StaleKeysClaimedIff | src/asset.rs:2600-2615 | where no asset owes more keys than its limit, none is left out iff every stale key can be built |
| CatchUp.CatchUpWithinLimitsIff | src/asset.rs:2796-2819 | so there it comes down to sources, buildable keys, readable reads and readers being built |
| Stepwise.StepwiseCompletes | src/asset.rs:1753-2177 | a run whose instances read a row at a time, note, hand over and commit as they come, beside others that write nothing it captures or writes, ends wherever it reads or writes as a run alone of instances that capture in one step |
| Stepwise.ClaimedElsewhere | src/asset.rs:2821-2840 | a commit within a claim that holds nothing a run captures or writes is such a step of another |
| Stepwise.OneReadingOfEachDep | src/asset.rs:2821-2840 | disjoint claims alone are not enough: a run that ends as it would alone recorded one fingerprint of each dep |
| Stepwise.SideBySideFresh | src/asset.rs:2821-2840 | a plan that converges on a region converges on it beside others that write nothing of it |
| Stepwise.BuildMakesClean | src/asset.rs:2734-2793 | in any history of the store, a plan that converges, run to its end beside others that leave its cone alone, leaves its target with its clean value, no row under it having recorded a dropped key and none having come back |
| Claims.FirstMet | src/store.rs:2378-2396 | two claims meet unless both are listed and share nothing; the cell named is in both |
| Claims.RunTable.Create | src/store.rs:2103-2172 | a launch listing its builds is refused iff it meets an active run, naming it and writing nothing; one listing nothing is never refused |
| Claims.RunTable.Finish | src/store.rs:2339-2349 | a terminal status releases the claim and touches no other run |
| Claims.ClaimsThroughout | src/store.rs:2144-2172 | of two active runs that meet, the later never said what it builds |
| Claims.OneWriter | src/asset.rs:2821-2840 | while every active run says what it builds, each cell has at most one run that may write it |
| Claims.SilentLaunchIsNotRefused | src/store.rs:2322-2337 | otherwise not: a launch that lists nothing joins a run it can collide with |
| Claims.ClaimHolds | src/asset.rs:2877-2896 | while a run holds a claim, a claimed cell's row is the one at the start or the run's own |
| Claims.StoresBehave | src/asset.rs:2821-2896 | seen from the store, runs coming, overlapping and going are one history of the builder |
| Claims.LineageIsHonest | src/asset.rs:1751-1819 | however runs interleave and key sets change, one set of rows explains each row: its fingerprints at one reading of the key sets, its body's inputs at a later one, and the two agree iff no captured key came or went in between |
| Claims.ConcurrentFreshIsClean | src/asset.rs:2378-2492 | while dropped keys stay dropped, a fresh cell whose reads reach no row that recorded one is clean however many runs built side by side |
| Limits.FreshOffsetFindsNothing | src/asset.rs:2004-2009 | in no reachable state is a reader of a held key through an offset fresh |
| Limits.GrowthDropsNothing | src/partition.rs:266-269 | where key sets have only grown since a fresh row was recorded, it recorded no dropped key |
| Limits.OutsideReadNeverFresh | src/asset.rs:2434-2442 | a reader at a key its dep does not have is fresh in no state |
| Limits.OutsideReadIsPlanned | src/asset.rs:2688-2695 | and yet the dep's fan-out is given that key |
| Limits.DefaultCoversIff | src/asset.rs:2606-2614 | a default build takes every owed key iff they are no more than its limit |
| Limits.NothingReadsTarget | src/asset.rs:2766-2785 | no op planned for one target reads the target |
| Limits.DefaultBuildFallsShort | src/asset.rs:2612-2613 | with more than that owed and none built, any whole default build leaves the target stale |
| Examples.TwoTargetsDoNotConverge | src/asset.rs:2777-2785 | two targets with a fresh asset between them: everything starts fresh, and after some run two assets are stale |
| Examples.SiblingDoesNotConverge | src/asset.rs:2774-2785 | an op run for one stale output moves a fresh sibling, and after some run the single target is stale |
| Rollups.ShrunkSetBreaksClean | src/partition.rs:266-269 | in an honest store, once a key a reader rolled up leaves its dep's set, the reader is called fresh and does not hold its clean value |
| Rollups.DroppedBeforeHandedOver | src/asset.rs:2117-2134 | in a run from the empty store a key dropped between noting and handing over leaves a fresh row that recorded it, its body never having been given it, and holding what a clean build would |
| DeliveryInvariant.OneInFlight | src/delivery_store.rs:444-471 | each destination has at most one delivery in flight within its lease, and its row carries that token and expiry |
| DeliveryInvariant.FenceMeansUnchanged | src/delivery_store.rs:510-511 | when the fence passes, the stored record is the one the claim carries and its attempt is open |
| DeliveryInvariant.AttemptsBounded | src/delivery_store.rs:371-375 | total attempts never exceed cycles times the policy's attempts |
| DeliveryInvariant.TakeKeepsInv | src/delivery_store.rs:444-487 | claiming a pending row of a free destination keeps every invariant |
| DeliveryInvariant.SettleKeepsInv | src/delivery_store.rs:493-580 | settling through the fence keeps every invariant |
| DeliveryInvariant.ReconcileKeepsInv | src/delivery_store.rs:345-416 | reconciling any row under any registry keeps every invariant |
| DeliveryInvariant.ControlKeepsInv | src/delivery_store.rs:597-666 | a control that is not refused keeps every invariant |
| DeliveryInvariant.PruneKeepsInv | src/delivery_store.rs:268-279 | pruning keeps every invariant: nothing left refers to what went |
| DeliveryInvariant.QueueKeepsInv | src/delivery_store.rs:110-140 | queueing a new run's routes keeps every invariant |
| DeliveryInvariant.FinishKeepsInv | src/delivery_store.rs:158-235 | turning a run's routes into deliveries keeps every invariant |
| DeliveryRuns.StepKeepsInv | src/delivery_store.rs:110-666 | every transaction, by any process with any registry, keeps the invariant |
| DeliveryRuns.LeasesExclude | src/delivery_store.rs:444-471 | in every state of every run, two deliveries in flight to one destination are never both within their leases |
| DeliveryRuns.NoUpdateIsLost | src/delivery_store.rs:510-511 | over whole runs, an answer that passes the fence finds the row exactly as it was claimed |
| DeliveryRuns.LeaseOutlastsCall | src/delivery_store.rs:459-464 | a claim's lease outlasts its policy's timeout by twenty seconds, and is at least thirty |
| DeliveryRuns.AnswerDecides | src/delivery_store.rs:524-572 | delivered iff accepted; pending at the answer's time iff retryable, in range and attempts are left; else failed |
| DeliveryRuns.LapseDecides | src/delivery_store.rs:367-405 | a lapsed lease is failed iff no attempts are left, else due at once unless its sink is gone |
| DeliveryRuns.StepMoves | src/delivery_store.rs:158-666 | a row that stays is the same or has a higher generation, has not left a settled state, and has gained no attempts unless retried |
| DeliveryRuns.GenerationsRise | src/delivery_store.rs:410-413 | over a run a row's generation never falls, and rises iff the row changed |
| DeliveryRuns.OneControlEach | src/delivery_store.rs:615-619 | of two controls naming one generation, the second is refused as changed |
| DeliveryRuns.SettledAbsorbs | src/delivery_store.rs:620-643 | delivered and dismissed records never change again |
| DeliveryRuns.AttemptsRunOut | src/delivery_store.rs:544-550 | without an operator's retry a row makes no more attempts than it had left |
| DeliveryRuns.LedgerThroughout | src/delivery_store.rs:472-485 | attempts are numbered exactly 1 to the count, exactly one accepted once delivered and none before, one open iff in flight |
| DeliveryRuns.StepClosesOpen | src/delivery_store.rs:371-387 | a step changes no attempt but an open one, and that only by settling it through the fence or giving it up as unknown once lapsed |
| DeliveryRuns.ClosedAttemptsStay | src/delivery_store.rs:512-580 | an attempt closes once: closed, it is the same for as long as its row is there |
| DeliveryRuns.StepNeverBack | src/delivery_store.rs:445-466 | a destination's next time never moves back while its row is there |
| DeliveryRuns.ClaimsAreSpaced | src/delivery_store.rs:445-466 | while the row stays, two claims are at least the first one's spacing apart |
| DeliveryRuns.CooldownHolds | src/delivery_store.rs:530-536 | and none comes before a cooldown asked for in between |
| DeliveryRuns.SpacingForgotten | src/delivery_store.rs:276 | in a run from the empty tables, pruning a destination's row forgets its spacing, and its next delivery may go at once |
| DeliveryRuns.FinishDelivers | src/delivery_store.rs:158-235 | each route of a terminal run is consumed, and delivered iff its statuses include the run's |
| DeliveryRuns.FinishIsIdempotent | src/delivery_store.rs:143-173 | finishing again, however often, changes nothing |
| DeliveryRuns.DeliveredOnce | src/delivery_store.rs:157-235 | over a whole run, pruning included, a run is announced to a destination at most once |
| DeliveryRuns.ClaimConserves | src/delivery_store.rs:427-491 | once reconciled, a claim is made iff something is due to a free destination, takes what is due soonest of all of that, and otherwise changes nothing |
| DeliveryRuns.QualifiedUntilIff | src/delivery_store.rs:327-491 | after a pass every waiting row stays sendable up to a later moment iff no step in between leaves one waiting that its sink cannot take |
| DeliveryRuns.SetsWaitingOnly | src/delivery_store.rs:158-666 | only a finishing run, an answer to try again, a visit or a retry leaves a row waiting, the last two only for a sink their registry has |
| DeliveryRuns.LaterClaimConserves | src/delivery_store.rs:427-491 | so a claim any number of steps after a pass is still made iff something is due and free, as long as none of them stranded a row |
| DeliveryRuns.HeadHides | src/delivery_store.rs:454-457 | before that, a head its sink cannot take hides everything behind it |
| DeliveryRuns.VisitReckons | src/delivery_store.rs:335-416 | a reconciled row waits only if it can be sent, is blocked only if not, and is in flight only on a running lease |
| DeliveryFields.QueueSays | src/delivery_store.rs:110-140 | a queued run adds its routes as chosen and touches nothing else |
| DeliveryFields.FinishDeliversSays | src/delivery_store.rs:158-235 | exactly the routes that asked for the run's status become rows: pending, due now, no attempt made |
| DeliveryFields.FinishDeliversOnce | src/delivery_store.rs:182-228 | no route becomes two |
| DeliveryFields.FinishSays | src/delivery_store.rs:158-235 | every route of the run goes and no other row of any table changes |
| DeliveryFields.FinishEnlists | src/delivery_store.rs:211 | a destination named for the first time starts unclaimed, with nothing to wait for |
| DeliveryFields.OfferedIff | src/delivery_store.rs:435-458 | claimable is the first due of a destination that is free and not held off, with an enabled sink that speaks its protocol |
| DeliveryFields.ClaimSays | src/delivery_store.rs:427-491 | a claim, column by column: the row in flight under the token and leased past its timeout, one attempt more and open, its destination leased and spaced, nothing else but reservations passed over |
| DeliveryFields.NoClaimSays | src/delivery_store.rs:427-491 | no claim is made only when nothing is offered, and nothing is written |
| DeliveryFields.SettleSays | src/delivery_store.rs:493-593 | an answer, column by column: nothing past the fence; else the row, its attempt and its destination as the answer says and nothing else |
| DeliveryFields.VisitSays | src/delivery_store.rs:345-416 | a visit, column by column: a running lease stays; a lapsed one is failed with no attempts left, due now with its sink there, blocked without; a pending row without its sink is blocked; one blocked for want of it is due now when it is back |
| DeliveryFields.VisitedAttemptsSay | src/delivery_store.rs:371-387 | the attempt a lapsed lease left open is closed as unknown and no other is touched |
| DeliveryFields.JudgeSays | src/delivery_store.rs:609-643 | which of its refusals a control is due, if any |
| DeliveryFields.ControlSays | src/delivery_store.rs:597-666 | a retry is due now in a new cycle with all its attempts, a dismissal settled and due no more, and nothing else changes |
| DeliveryFields.PruneSays | src/delivery_store.rs:268-279 | a row is kept unless delivered or dismissed and settled before the time, an attempt iff its row is, a destination iff it is claimed or a kept row or a route names it; all unchanged |
| DeliveryStore.Choose | src/delivery_store.rs:435-458 | the row found is claimable and due no later than any other claimable; none is found iff there is none; reservations passed over are let go |
| DeliveryStore.Tables.Snapshot | src/delivery_store.rs:110-140 | one route for exactly each destination that takes the run's job |
| DeliveryStore.Tables.Finish | src/delivery_store.rs:158-235 | the terminal transaction, as the step the theorems are about |
| DeliveryStore.Tables.SetStatus | src/delivery_store.rs:157-173 | a status change and the deliveries it owes are one step |
| DeliveryStore.Tables.Claim | src/delivery_store.rs:427-491 | lease, spacing, row, attempt and token together, or nothing |
| DeliveryStore.Tables.Settle | src/delivery_store.rs:493-593 | succeeds iff the fence holds; the whole new state of row, attempt and destination |
| DeliveryStore.Tables.ReconcileRow | src/delivery_store.rs:345-416 | one row's transaction: nothing within a lease, else recovered, blocked or unblocked |
| DeliveryStore.Tables.Reconcile | src/delivery_store.rs:327-425 | a whole pass, page by page and with no other transaction between its rows, is visits and nothing else, leaves every row as one visit during it would, and everything pending sendable |
| DeliveryStore.Tables.Control | src/delivery_store.rs:597-666 | retry or dismiss, or the refusal it is due, unknown before changed before state |
| DeliveryStore.Tables.Prune | src/delivery_store.rs:268-279 | exactly the rows delivered or dismissed and settled before the time go, with their attempts and the destinations unclaimed and no longer named; the rest is unchanged, and the count is of the rows gone |
| Backfills.LaunchMakesProgress | src/backfill.rs:151-193 | a pass sends nothing or exactly the next chunk, leaving strictly fewer keys; a conflict changes nothing |
| Backfills.VisitSays | src/backfill.rs:102-127 | one record, field by field: left while its last run is queued or running, stopped after a cancelled one, failed after a failed one or one no longer kept, complete with nothing left to send, else sent its next keys up to the limit if the launch is taken |
| Backfills.LaunchSays | src/backfill.rs:146-201 | the next keys of the record as read go out as one run and onto the record as it is; with none left it is closed, and a launch not taken writes nothing |
| Backfills.PassSays | src/backfill.rs:102-127 | under run ids never used before, a pass judges each record by the store it began with, up to and including the first whose launch errs |
| Backfills.RangeSays | src/partition.rs:281-298 | there is a range iff both ends are held and the first is no later; it is the keys between them in order, both ends included |
| Backfills.RangeWithoutRepeats | src/partition.rs:281-298 | in a set without repeats that is from the one place to the other |
| Backfills.StartsIff | src/backfill.rs:28-62 | a start is accepted iff the asset is known, partitioned, has no backfill going, and every key of the range has its windows |
| Backfills.StartedSays | src/backfill.rs:68-80 | it leaves one record more, complete if it has no keys, and its first keys queued as a run if the launch is taken |
| Backfills.PassKeepsInv | src/backfill.rs:102-127 | a whole pass with nothing else going on keeps every record's invariant |
| Backfills.StartKeepsInv | src/backfill.rs:45-80 | and so does a start that finds none of its asset going, whatever its first launch comes to |
| Backfills.ErringOldestStarves | src/backfill.rs:102-127 | an oldest backfill whose launch errs ends every pass with the store untouched, whatever waits behind it |
| Backfills.Chunker.SendNext | src/backfill.rs:146-201 | the next chunk of the record as read, written into the record as it is; a conflict writes nothing |
| Backfills.Chunker.Tick | src/backfill.rs:102-127 | one pass over the backfills going, oldest first, ended by the first launch that errs; each record closed, sent its next keys or left as its last run says, and no other run or record touched |
| Backfills.Chunker.Stop | src/backfill.rs:84-98 | unknown, already over and left alone, or closed as it stands; no other record and no run changes |
| Backfills.Chunker.Start | src/backfill.rs:28-80 | refused with nothing written, in the source's order, iff unknown, not partitioned, one of the asset going, a bad range or a key not held whole; else recorded over every key from the first named to the last, or those of them still owed, in order and once each, and its first chunk tried, an error there leaving the record |
| BackfillRuns.ChunksAreThePrefixIff | src/backfill.rs:146-201 | over any passes, starts and cancels at once, the chunks on every record are always its first `launched` keys in order iff no chunk is put on a record another has been put on since it was read |
| BackfillRuns.ClosedForGoodIff | src/store.rs:5478-5553 | a closed backfill never changes again, in a whole run, iff no chunk is put on a closed record |
| BackfillRuns.LateChunksBounded | src/backfill.rs:84-98 | after a close at most one chunk is launched for each errand that had read the record and not launched, and the status stands |
| BackfillRuns.LaunchesAccountedIff | src/store.rs:5478-5519 | every run launched is always on its record or about to be iff none is lost between launching and recording |
| BackfillRuns.UndisturbedBackfills | src/backfill.rs:102-201 | with nothing between a read and what it leads to: chunks are the prefix, each run but the last succeeded, complete means all sent and all succeeded, and the runs sent are those on record, each once |
| BackfillRuns.OneAtATimeIff | src/backfill.rs:45-58 | two backfills of an asset are never both going iff no start writes its record after another of the asset has begun |
| BackfillRuns.VisitIsHandled | src/backfill.rs:102-127 | what a pass does about one record is its read, look, launch and recording with nothing in between |
| BackfillRuns.LookSays | src/backfill.rs:102-127 | what a look at a record decides, by the last run put on it |
| BackfillRuns.TwoReadersRepeatAChunk | src/backfill.rs:102-117 | two passes that read one record alike send its first chunk twice and count it once |
| BackfillRuns.CancelledBackfillIsSent | src/backfill.rs:84-98 | a cancel between a read and its launch does not stop the chunk |
| BackfillRuns.UnrecordedChunkIsResent | src/backfill.rs:178-192 | a launch that could not be recorded is sent again |
| Deciders.OneBelieverPerTerm | src/decider.rs:144-170 | no two processes ever believe in one term |
| Deciders.AcquiringRaises | src/store.rs:3229-3252 | every acquisition is the next term and nothing else moves the term |
| Deciders.LaterTermFences | src/store.rs:6350-6372 | once a later term is taken nothing under an earlier one commits, whatever its maker believes and its clock says |
| Deciders.CommitsInTermOrder | src/store.rs:6350-6372 | committed decisions are in term order, each term's by the one process granted it |
| Deciders.BeliefGoesFirst | src/decider.rs:175-189 | when the row is released its process has already stopped believing in the term |
| Deciders.BeliefOutlastsTheLease | src/decider.rs:6-18 | two processes can believe at once, and only the later one's decision commits |
| Deciders.ErrorKeepsBelief | src/decider.rs:207-243 | answered at once and renewed in error at 9000, a process still believes at 10500 with no row behind it |
| Leases.BackedUntil | src/store.rs:3260-3277 | before the next event, the row is behind a belief exactly until one lease after it was last moved for it |
| Leases.BeliefOutlastsRowIff | src/decider.rs:190-243 | since its last confirmation a process believes at a time with no row behind it iff no reply since refused it or erred a whole lease after the time it counts from, it has not left, and a lease has passed since the row was last moved for it; it counts from the confirmation or, later, from its loop's beginning |
| Leases.BackedByTheConfirmed | src/decider.rs:218-224 | with no later renewal applied, that is a lease since the confirmed call was made |
| Leases.OverrunBounded | src/decider.rs:190-243 | the overrun is less than the time from asking to counting and the time since the last reply, or the loop's beginning, together |
| Leases.OverrunReached | src/decider.rs:204-243 | for every delay of a start-up and every gap a run comes within one of that |
| Leases.OverrunReachedLater | src/decider.rs:204-243 | and for every latency of a renewal |
| Deciders.Row.Take | src/store.rs:3229-3252 | taken iff free, ours already or past its time, always under a new term |
| Deciders.Row.Renew | src/store.rs:3260-3277 | moved iff still held under that term and not run out |
| Deciders.Row.Release | src/store.rs:3282-3289 | given up iff held under that term, leaving the term |
| Deciders.Row.Fence | src/store.rs:6363-6372 | passes iff still held under that term and not run out |
| Deciders.Process.Begin | src/decider.rs:204-208 | the loop counts its first lease from its own beginning |
| Deciders.Process.TakeNow | src/decider.rs:144-170 | an error leaves the belief alone whatever it did to the row |
| Deciders.Process.HandBack | src/decider.rs:175-189 | the belief is cleared whatever happens to the row |
| Deciders.Process.Turn | src/decider.rs:207-243 | one turn: a refused renewal ends the term, an erroring one only after a lease unconfirmed |

## Left out

- MemoRuns.MemoisedEqualsClean: asks that no key set takes back a key it dropped, which `Windows.ClockedIsSteady` proves of a clock that does not run backwards; replays have saved rows, because a legacy one records no fingerprints at all.
- Memo.FreshIsClean: is sufficient on values and exact on inputs (`Memo.GivenCleanIff`), because a body may ignore a key it was handed.
- Convergence.TargetConvergesIff: is for one target, every source in its cone probed and every read there one its dep holds and not through an offset; `Convergence.PlanConvergesIff` is exact with none of these.
- Convergence.AllConvergesIff: is for unpartitioned registries; `CatchUp.CatchUpIff` is the same with partitions.
- Stepwise.StepwiseCompletes: asks that others write nothing the run captures, not only nothing it claims, because a run may read what another's claim covers, and that key sets stay as they are while it lasts.
- Claims.OneWriter: asks that every active run lists its builds, because one that lists none is checked against nothing.
- DeliveryRuns.ClaimsAreSpaced: is while the destination's row stays, because pruning may drop it.
- Assets.CheckPartitionDeps: does not model the calendar checks between key grains, because the arithmetic of windows and offsets is a parameter of the mapping here.
- Claims.RunTable.Create: leaves out the term fence and the sensor and schedule keys of the same transaction, because other indexes decide them.
- DeliveryStore.Tables.Reconcile: lets no other transaction in between two rows of a pass; one row's transaction among any others is `DeliveryRuns.VisitReckons` and `DeliveryRuns.ClaimConserves`.
- Assets.New: leaves out namespaces, hues, checks and the calendar grains of partitions, because they order and build nothing.
- Builds.CaptureInputs: reads one fixed store and saves nothing for a replay; reading a row at a time and saving are steps of `Memo`.
- Backfills.PassSays: asks that run ids are never used twice, because each is drawn at random.
- Backfills.PassKeepsInv: lets no other writer in; what any number of them do at once is `BackfillRuns`.
- The probe race, a source changing while it is probed: a source's contents are a function of its fingerprint.
- Asset checks and the ops they lower to: they produce no asset and claim nothing.
- Io managers and stored handles: a value is what the store holds.
- Declarative lowering of assets and multi-assets, hues, owners and display names: configuration.
- Jitter and exponential backoff: the wait before a retry is any time not before now, or none when it is out of range.
- Policy bounds that make a lease or a spacing overflow the calendar: validated when a policy is built, and here unbounded integers.
- Envelopes, audit events, meters, health counts and read-only queries of deliveries: no state the invariants are about.
- The executor's queue, retries within an op and process reclaim: a run's instances capture after what they wait for and commit once.
- `Deciding::sole` and `Deciding::never`, processes that run no election: they hold no term to reason about.
- Asynchronous waiting, shutdown wiring, HTTP, rendering and SQL dialects: each transaction is one atomic step.
