# oMLX, modelled in Dafny

This project models five parts of oMLX, the local inference server, and proves what they promise.

1. The mixed-precision planner (`omlx/oq.py`): five passes share one boost map and one running total of
   bits. `QuantNames` holds the per-tensor rule, `QuantCost` the size formula, `QuantPlan` the passes as
   functions, `PlanProofs`, `PlanTheorems`, `PlanLedger`, `PlanRoom` and `PlanTiers` what they guarantee,
   `Planner` the loops as they run, `PlanByName` what that means for names and scores, `ExamplePlan` a model
   for which the reported figure is wrong.
2. The streaming tensor machinery (`omlx/oq.py`): `Tensors` and `Replay` (a sanitizer's dry run and its
   replay), `ChunkedRows` (loading and quantising row by row), `LazyIndex` (the dictionary that hides FP8
   scales), `Shards` (the output loop).
3. The engine pool and the memory enforcer: `PoolState` and `PoolAdmission` (the pool's state, and each
   operation as a function or relation on it), `EnginePool` (the pool as it runs), `Limits`, `HotCaches`,
   `Enforcer`, and `PoolRuns` (both together, in any interleaving), with `PoolLoads` (the engine a load
   comes to) and `PoolTicks` (a tick from its first readings to its end). Everything read from outside
   (memory, clocks, activity, start-up results) is a function of a tick that advances at each reading.
4. The batched, left-padded KV cache: `BatchCache`. A quantised state is its rows of entries.
5. Output delivery: `Collector`, `EngineCore`, `EngineFeed` (what reaches a consumer), and the two event
   streams `AnthropicStream` and `ResponsesStream`, each read by a strict client that rejects any event out of place.

`Common` holds what the modules share. Objects that the code updates in place are classes here, its loops
are loops, and each method is tied to a function or relation on the old and the new state; properties are
then proved of those functions and of whole runs (`RunPool`, `Run`, `Interleave`, `Serve`, `ReplayAll`,
`Use`, `Stream`, `WriteShards`). Bits per weight are exact rationals where the code uses floats.

Coroutines are cut where they wait for something that others may do meanwhile. In the pool these are the
waits of a load, with or without the lock, for its engine, for a drafter and for buffers to be released, and
the enforcer's wait for the lock; in a run anything that is enabled may happen between two segments. What
runs under the lock between two of these points (an admission with its evictions, a time-to-live check, the
relief of pressure) is one segment. In the collectors and the engine every suspension point is a cut.

Where the code does not keep a promise for every input, the exact condition is proved:

- With 150 or more experts a protection floor may be in groups of 128, and is re-priced in groups of 64 when
  it is raised. The running total is then off by a quarter of a bit per weight, or, for rows with an odd
  number of groups of 64, by the difference to fp16; `LedgerInClosedForm` gives the sum. No floor of that
  kind, no error (`LedgerIsExact`). Where the cap has room for the dearest entry that each tensor can get
  (routed experts at the base, other matrices in 8 bits), the total is right if and only if no such floor is
  exposed, with a goal out of reach or every such floor within reach of the sensitivity pass
  (`ExactIffNoneExposed`), and, with a goal that the base already reaches, if and only if none of those
  within reach is (`ExactIffNoneSensible`); the floors are taken to err in one direction. For any cap it is
  right if and only if none was replaced (`ExactIffNoneMissed`). `ReportsTooLittle` is a model with a routed
  expert whose plan, at level 2 and within that level's own cap, is 4096 bits too low.
- A model without parameters makes the planner divide by zero exactly when a mandatory tensor exists; none of
  the other divisions is reached.
- Evictions are in the order of last access, for all pools, if and only if no model becomes idle after
  another one was (`OrderIffSettled`). What always holds is that every evicted model was, at its own moment,
  the least recently used of those loaded, unpinned and idle.
- Discoveries take no lock. One that overlaps a load leaves the memory counter too high by the model's size if
  and only if the engine starts (`OverlapLosesSize`, `CounterIsExact`); `LossHappens` is such a run.
- A load that holds the lock is never asked to abort, because the enforcer needs the lock for that. The
  administration reloads a pinned model without the lock (`omlx/admin/routes.py:2526-2532`), and such a load
  can be asked: exactly those in progress when a tick at hard pressure finds nothing to evict
  (`AskedIsExact`). Asked before its engine has started, it never registers it (`AskedNeverCompletes`).
- While a load waits for its drafter, its engine is registered and its scheduler may not have been told the
  limits yet; every other scheduler has always been told the same (`StepKeepsSafe`).
- A request repeated right after its load is answered at once if and only if the load did not end with the
  vision engine of a model asked for as text: then every such request unloads the engine and loads it again
  (`SameRequestAgain`).
- Schedulers are told something else than the pressure level says exactly from a tick that finds no ceiling
  while the level was up until the next operation that propagates (`LagIsExact`).
- The limit that follows the growth of other processes is dropped exactly when they have grown by the
  whole startup ceiling; and an enabled guard without a lease reads as off exactly when the static ceiling
  or the available memory is down to zero.
- The flag of a waiting consumer is up exactly while one is blocked, throughout a run, if and only if no `get`
  begins while another is blocked on the same collector and none is blocked when it is cleared
  (`ExactIffSole`).
- A late ordinary output merged on top of a finished one hides the finish from the waiting consumer,
  exactly when the buffered one carries no error; a set event promises a terminal output throughout a run if
  and only if no output does that (`EveryEventIsKept`).
- What consumers receive, followed by what is buffered, is all that was put, if and only if `clear` has
  discarded nothing (`LosslessDelivery`).
- Appending to the batched cache keeps the rows exactly when some row has no left padding. Filtering can
  take that row away; `AppendOverwrites` is such a batch.
- The batch mask never admits padding or future tokens, but it also denies a left-padded row some of its
  own tokens: the mask is causal for a row exactly when the row has no padding.
- The Anthropic stream fails at its closing events exactly when the engine yields nothing.
- A Responses stream with native reasoning and streamed content is well formed exactly when no thinking
  follows content and, unless the engine breaks off, the final flush brings none.
- A replayed addition always adds one; a stack on a negative axis is recorded with the new dimension one
  place early; a lazily stored tensor without rows cannot be quantised.
- With an interval above one, an engine passes over the outputs in between, with their tokens; with an
  interval of one everything reaches the consumer (`NothingIsLost`, `StepBringsAll`).
- A lookup in the lazy dictionary answers a hidden, stored scale key although membership denies it.
- A run whose only shard reaches the limit with its very last tensor keeps its placeholder name and gets
  no index.

## Model

| member | source | states |
|---|---|---|
| QuantNames.RuleIsSound | omlx/oq.py:79-287 | for every path and configuration a boost that no earlier rule claims is taken as it is, any other override is a supported width at or above the base, in groups of 64 unless there are 150 or more experts, and which tensors stay fp16 does not depend on level, scores, boosts or budget mode |
| QuantNames.BaseIsWhole | omlx/oq.py:346-347 | the base width of a level is its number in whole bits, and one the quantiser supports |
| QuantNames.HigherLevelsAreWider | omlx/oq.py:79-287 | for every path and configuration a higher level never makes a tensor narrower |
| QuantNames.LevelOnlyLifts | omlx/oq.py:79-287 | other than in fp16 or for what is fixed, a tensor gets what it gets at level 2, or the base of the level if that is wider; at level 3.5 some get 4 bits instead |
| QuantNames.SensitiveNeverNarrower | omlx/oq.py:79-287 | the same tensor is never narrower in a sensitive layer than in another |
| QuantNames.SensitiveAreTheTop | omlx/oq.py:242-253 | with a score map the sensitive layers are its top: with a layer every other that scores as high, at least a quarter of the scored layers and one in any case, and without ties no more than that |
| QuantNames.OtherSensitiveLayers | omlx/oq.py:242-253 | without a score map a layer is sensitive exactly if it lies within the first eighth of the layers or reaches into the last; with one, a layer that was not scored counts as zero |
| QuantNames.LayerIndexReads | omlx/oq.py:327-330 | the number after the first "layers." of a name, written in decimal and followed by a dot, is the layer it is read as |
| QuantCost.Estimate | omlx/oq.py:374-404 | the loop returns the recomputed total and the parameter count |
| QuantCost.AffineDensity | omlx/oq.py:358-371 | a matrix whose rows split into groups costs exactly bits + 32/group per weight |
| QuantCost.GroupCount | omlx/oq.py:366-370 | groups times group size are all the weights |
| QuantCost.BytesHoldBits | omlx/oq.py:358-371 | the bytes of a grouped tensor hold all its bits, in any group size and mode |
| QuantCost.WiderIsDearer | omlx/oq.py:358-371 | in one group size a wider tensor costs strictly more if and only if it is not empty |
| QuantPlan.Widest | omlx/oq.py:624-639 | the width chosen at a turn is the largest supported one that costs something and fits, and none is chosen only if none does |
| PlanProofs.TotalBitsAt | omlx/oq.py:374-404 | boosting one tensor moves the recomputed total by the change in its own cost |
| PlanProofs.PlacingGrows | omlx/oq.py:507-586 | a placing pass takes nothing back, adds only widths above the base, and except for the expert pass spends nothing beyond the cap |
| PlanProofs.PlacingIsExact | omlx/oq.py:507-586 | a placing pass leaves the gap between running and recomputed total unchanged |
| PlanProofs.PlacingServes | omlx/oq.py:507-586 | a tensor is boosted by a pass exactly as offered, or the boost would save nothing or not fit even at the end of the pass; a tensor without an offer is not touched |
| PlanProofs.RankedIsStableSort | omlx/oq.py:621-623 | candidates are a permutation in descending score order, and those of equal score keep their order |
| PlanProofs.GreedyGrows | omlx/oq.py:621-679 | a greedy pass takes nothing back and spends nothing beyond the cap |
| PlanProofs.GreedyDrift | omlx/oq.py:621-679 | a greedy pass changes the gap between running and recomputed total by exactly what re-pricing the replaced entries in groups of 64 gets wrong |
| PlanProofs.TurnIsWidest | omlx/oq.py:621-639 | the k-th candidate ends at the widest width that fitted beside what had been spent before its turn |
| PlanProofs.GreedyIsMaximal | omlx/oq.py:621-679 | after a greedy pass that did not reach its goal no candidate can be raised further within its allowance and the cap |
| PlanTheorems.PassesGrow | omlx/oq.py:507-679 | over all five passes nothing is taken back, and only the expert pass may spend beyond the cap |
| PlanTheorems.PlanRespectsCap | omlx/oq.py:507-679 | the final total fits the cap or equals the all-base total, at level 3.5 the total right after the expert pass; every boost is a supported width above the base |
| PlanLedger.LedgerIdentity | omlx/oq.py:500-682 | the placing passes keep the running total equal to the recomputed one; afterwards it differs by the re-pricing of the entries replaced since, and entries have only been added or widened, for every input |
| PlanLedger.WideErrorIs | omlx/oq.py:358-371 | replacing a floor in groups of 128 misprices it by minus a quarter of a bit per weight, or, for a row with an odd number of groups of 64, by half of 31 minus twice its bits, or not at all where neither grouping applies |
| PlanLedger.LedgerInClosedForm | omlx/oq.py:500-682 | after the sensitivity pass and at the end the running total is the recomputed total plus the sum of these errors over the replaced floors |
| PlanLedger.MissedIsWide | omlx/oq.py:557-586 | an entry that causes an error was a floor in groups of 128 above the base and below 8 bits, of a matrix with weights in groups of 64 that is no routed expert |
| PlanLedger.ExactIffNoneMissed | omlx/oq.py:500-682 | where the wide floors err in one direction only, the final total is right, for any cap and goal, if and only if no such floor was replaced |
| PlanLedger.LedgerIsExact | omlx/oq.py:500-682 | without a wide floor the running total is the recomputed one after each of the five passes, whatever the cap, the scores and the goal |
| PlanLedger.FewExpertsUseOneGroup | omlx/oq.py:125-137 | fewer than 150 experts means there is no wide floor |
| PlanRoom.ItemBound | omlx/oq.py:358-682 | a tensor is never charged more than its dearest entry, re-pricing included: the base for what stays there, one bit more for an expert boosted as such, 8 bits, or 24 bits a weight for a wide floor on a row with an odd number of groups |
| PlanRoom.SpentBound | omlx/oq.py:500-682 | so the running total never exceeds the room, the sum of these |
| PlanRoom.ExactIffNoneExposed | omlx/oq.py:500-682 | with a cap that has that room, and a goal out of reach or every exposed floor within reach of the sensitivity pass, the total is right if and only if no floor is exposed, which can be told before planning |
| PlanRoom.ExactIffNoneSensible | omlx/oq.py:500-682 | with that room and a goal that the base reaches, if and only if no floor is both exposed and within reach of the sensitivity pass |
| PlanTheorems.RoutedOnlyByRule | omlx/oq.py:507-679 | a routed expert is boosted only by a mandatory name or by the level 3.5 down projection rule |
| PlanTheorems.MandatoryServed | omlx/oq.py:507-531 | at the end every mandatory 8-bit boost is in place, or would save nothing, or does not fit |
| PlanTheorems.FloorServed | omlx/oq.py:557-586 | the same for every protection floor of a tensor that is not a routed expert |
| PlanTheorems.ExpertsServed | omlx/oq.py:533-552 | at level 3.5 every down projection of a routed expert ends a bit above the base or wider, cap or no cap, unless that saves nothing |
| PlanTheorems.PlanIsMaximal | omlx/oq.py:641-682 | the plan reaches its target, or no boosted tensor below 8 bits other than a routed expert can be raised to any supported width at a greater cost within the cap |
| PlanTheorems.SensitivityIsMaximal | omlx/oq.py:588-639 | after the sensitivity pass no candidate can be raised further within its allowance |
| PlanTiers.SensitivityTier | omlx/oq.py:588-639 | for any cap, the sensitivity pass leaves a tensor its width or gives it, at a positive cost, a supported one that its score earns: up to 8 bits from half the best score on, up to 2 bits more from a fifth on, 1 bit more below; and a wider one that it earns and that costs more does not fit in the end |
| PlanTiers.FloorWidthIs | omlx/oq.py:507-586 | with room in the cap, the placing passes bring a tensor that is no routed expert to 8 bits for a mandatory name, or else to its floor, each if that costs anything, and leave it at the base otherwise |
| PlanTiers.TierWithRoom | omlx/oq.py:588-639 | with that room the pass then takes every layered matrix in whole groups to the widest width its score earns, and leaves one whose cost does not depend on the width |
| PlanTiers.BetterScoreIsWider | omlx/oq.py:603-639 | with that room, of two layered tensors alike in all but name, layer and score the one with the better score never ends up narrower |
| PlanByName.ProtectionsHold | omlx/oq.py:507-682 | in terms of names: at the end of every plan a tensor that is no routed expert has what the full protection rules ask for beyond the base, and one with a mandatory name that is not kept in fp16 has 8 bits, or that would save nothing or not fit the cap; at level 3.5 the down projections of routed experts have 4 bits, fitting or not |
| PlanByName.BetterLayerIsWider | omlx/oq.py:588-639 | in terms of names and the score map: with room in the cap, of two matrices of one shape that the rules do not tell apart the one in the layer with the better score is not narrower after the sensitivity pass; a layer that was not scored counts as zero |
| Planner.HighestScore | omlx/oq.py:489-490 | the largest layer score, or zero without scores |
| Planner.RunPass | omlx/oq.py:507-586 | the loop of a placing pass is the function the theorems are about, unless it divides by zero: exactly when there are no parameters and some item makes the pass compute a figure per weight |
| Planner.RunRaise | omlx/oq.py:624-639 | the scan over the widths of a candidate raises it to the widest that fits, or divides by zero only without parameters and for a width that costs something |
| Planner.RunGreedy | omlx/oq.py:621-682 | the loops of a greedy pass, which compare figures per weight, are the function on totals, or divide by zero only without parameters and for a candidate that costs something |
| Planner.NoParametersNoCost | omlx/oq.py:358-371 | in a model without parameters nothing costs anything, so that only the mandatory pass can divide by zero |
| Planner.BuildQuantPlan | omlx/oq.py:467-705 | division by zero exactly for a model without parameters that has a mandatory tensor; otherwise the reported bits per weight equal an independent estimate below 150 experts or without a wide floor, respect the cap unless the base does not, and every entry is a supported width above the base |
| ExamplePlan.Described | omlx/oq.py:79-287 | with 150 experts the rule gives the output projection of a sensitive layer a floor of 6 bits in groups of 128 |
| ExamplePlan.ReportsTooLittle | omlx/oq.py:50-57 | for a model of a routed expert and that projection, at level 2 with its own target and cap, there is room for every dearest entry, the running total ends at 4231168 bits, and the boost map costs 4235264 |
| Tensors.ChunkedStack | omlx/oq.py:1225-1244 | stacking in chunks and concatenating on the same axis is one stack, for every chunking |
| Tensors.MovingTransposes | omlx/oq.py:1057-1076 | moving one axis is, shape and elements, transposing along the list of axes with that entry popped and inserted |
| Tensors.SlicesJoin | omlx/oq.py:1208-1298 | cutting a tensor in two along an axis and joining the slices gives it back |
| Replay.StackInChunks | omlx/oq.py:1225-1245 | the replayed stack is the stack eager execution computes, put together from stacks of 16 sources and one of what is left |
| Replay.Materialize | omlx/oq.py:1208-1298 | whatever operation a record came from, its replay is what eager execution computes; for an addition exactly when the constant is 1 or the tensor is empty |
| Replay.TrackedShape | omlx/oq.py:1013-1076 | the recorded shape is the real one, except that a stack on a negative axis is right only if the neighbouring dimension has the number of tensors |
| Replay.AxesFromTheEnd | omlx/oq.py:1013-1076 | a negative axis counts from the end: the operation on it is legal and is the one on the axis it stands for |
| Replay.DiscoveredPlan.Pop | omlx/oq.py:1208-1298 | a key yields the tensor its operation yields, once; other keys stay; an unknown key is missing |
| Replay.ReplayAll | omlx/oq.py:977-1145 | replaying a whole plan gives every output of the sanitizer with its eager value, and discovery gives up exactly if some output is a slice that is not half of an even dimension |
| ChunkedRows.LoadRows | omlx/oq.py:2049-2081 | rows loaded in pieces are the rows of the byte range decoded at once; every piece fits the byte budget and the element count of the array library, or is one row, and none but the last has room for another row |
| ChunkedRows.InPieces | omlx/oq.py:2071-2080 | cutting the decoded elements piece by piece gives all the rows in order, every piece but the last with the full number of rows |
| ChunkedRows.RowChunks | omlx/oq.py:2098-2110 | the chunks are non-empty, are the rows in order, hold at most the larger of the limit and one row, and none but the last has room for another row |
| ChunkedRows.RegroupMapped | omlx/oq.py:2135-2139 | quantising flattened rows and reshaping is quantising in place |
| ChunkedRows.QuantizeChunked | omlx/oq.py:2113-2140 | chunked quantising equals quantising the whole tensor for every quantiser that works per row; the quantiser sees the rows in order, in runs that hold one group of weights or stay within half the buffer and the element count, or single rows, none but the last with room for another row; it fails exactly for a lazily stored tensor without rows |
| LazyIndex.PairUp | omlx/oq.py:1851-1866 | every FP8 weight with a scale of its name is paired with one, nothing else is |
| LazyIndex.LazyTensorIndex.constructor | omlx/oq.py:1834-1866 | a new dictionary satisfies the invariant and shows what was stored |
| LazyIndex.LazyTensorIndex.Contains | omlx/oq.py:1910-1912 | membership is membership in the map |
| LazyIndex.LazyTensorIndex.Length | omlx/oq.py:1906-1909 | the length is the size of the map |
| LazyIndex.LazyTensorIndex.Keys | omlx/oq.py:1901-1920 | iteration yields every key of the map exactly once |
| LazyIndex.LazyTensorIndex.Lookup | omlx/oq.py:1930-1937 | a lookup answers like the map if and only if the key is not a stored hidden scale that can be read |
| LazyIndex.LazyTensorIndex.Items | omlx/oq.py:1939-1947 | the items are the map |
| LazyIndex.LazyTensorIndex.Assign | omlx/oq.py:1954-1959 | the new state shows the map with the assignment; nothing is revealed or hidden |
| LazyIndex.LazyTensorIndex.Remove | omlx/oq.py:1961-1968 | the new state shows the map without the key; a paired weight takes its scale key out of hiding |
| LazyIndex.LazyTensorIndex.Take | omlx/oq.py:1978-1995 | pop answers like the map and the new state shows the map without the key; a paired weight takes its scale key out of hiding |
| LazyIndex.LazyTensorIndex.UpdateAll | omlx/oq.py:1970-1976 | update assigns all entries in order |
| LazyIndex.Use | omlx/oq.py:1829-1995 | every sequence of operations that names no scale key while it is hidden gets the answers of a plain map and leaves what a plain map would hold |
| Shards.FiveIsInjective | omlx/oq.py:2493-2493 | zero-padded shard numbers are distinct, beyond 99999 as well |
| Shards.FiveReads | omlx/oq.py:2493-2493 | a shard number is written in decimal with leading zeros up to five digits, and reads back |
| Shards.NamesDiffer | omlx/oq.py:2493-2543 | no two placeholder or final names of a run are equal |
| Shards.PackingIsUnique | omlx/oq.py:2491-2502 | there is only one way to cut the tensors where a shard first reaches the limit |
| Shards.GroupsAreThePacking | omlx/oq.py:2491-2502 | cutting the tensors as they come is that one packing: a grouping is a packing if and only if it is the one the loop makes |
| Shards.ShardSizes | omlx/oq.py:2491-2502 | every shard but the last holds at least 5 GB, and none held as much before its last tensor |
| Shards.WriteFullShards | omlx/oq.py:2406-2506 | after the loop the shards on disk, the weight map, the shard count and the dictionary in hand are those of the kept tensors |
| Shards.WriteAll | omlx/oq.py:2406-2546 | with the leftover shard every group of the packing is on disk, under placeholder names or, alone and below the limit, under the plain name |
| Shards.RenameShards | omlx/oq.py:2548-2561 | after renaming every file and every reference has its final name |
| Shards.SingleFull | omlx/oq.py:2528-2549 | there is exactly one shard, and it was flushed, if and only if all tensors together reach the limit and no proper part does |
| Shards.WriteShards | omlx/oq.py:2406-2576 | the files are the shards of the one packing under their final names, the weight map sends each key to the file holding it, and a loader finds the weights unless there are none or a placeholder name is left |
| Shards.EveryArrayOnce | omlx/oq.py:2455-2496 | with distinct output keys the shards laid end to end are all arrays in source order, and no key is in two shards |
| Shards.EveryArrayIsFound | omlx/oq.py:2455-2576 | reading back: the weight map leads from the key of every array produced to the one file that holds it, under that key |
| Shards.KeptAreWanted | omlx/oq.py:2434-2447 | the tensors that reach the output are exactly those that are neither vision or audio tensors of a text-only run nor unwanted draft heads |
| Shards.EveryTensorIsFound | omlx/oq.py:2449-2496 | reading back tensor by tensor: each of them is found through the weight map, cast under its name, or as weights, scales and biases beside each other under its name without the suffix |
| Shards.PlaceholderByTotals | omlx/oq.py:2491-2549 | with distinct keys the placeholder stays exactly if all bytes reach the limit and those before the last tensor do not |
| PoolState.LessIdOrders | omlx/engine_pool.py:558-584 | the order of ids is a strict total order |
| PoolState.PickedWereIdle | omlx/engine_pool.py:466-476 | whoever is evicted was loaded, unpinned and idle at the tick it was picked, and is evicted once |
| PoolState.SettledInOrder | omlx/engine_pool.py:558-584 | evictions go by (last access, id) while no model becomes idle after another one was |
| PoolState.OrderIffSettled | omlx/engine_pool.py:558-584 | they do so for all pools if and only if that is the case |
| PoolState.UnloadedSize | omlx/engine_pool.py:654-655 | unloading takes exactly its size out of the loaded total |
| PoolState.StartEndsKeeps | omlx/engine_pool.py:692-977 | counter, loading marks, lock and loads in progress stay consistent when an engine has started, failed for good, or is dropped because the load was asked to abort |
| PoolState.LoadEndsKeeps | omlx/engine_pool.py:1033-1061 | and when the load ends |
| PoolState.DiscoverKeeps | omlx/engine_pool.py:151-232 | and through a discovery, at any moment: loaded entries and the counter stay, a load whose entry has no engine loses it |
| PoolState.OverlapLosesSize | omlx/engine_pool.py:151-232 | a load whose entry is discovered anew leaves the counter too high by its size if and only if the engine starts at one of its attempts |
| PoolState.MarkedLoadAborts | omlx/engine_pool.py:950-971 | a load that was asked to abort while its engine starts changes neither the counter nor what is loaded, fails or ends as aborted, and does not hold the lock |
| PoolAdmission.TurnedAway | omlx/engine_pool.py:416-430 | unknown models, and models of videos and images, which run as jobs, are turned away with nothing changed, and no others are |
| PoolAdmission.FitLeavesRoom | omlx/engine_pool.py:446-469 | under a ceiling the verdict is a fit exactly if the last usage leaves room for the weights, and for a model that generates text also for the working memory asked for at the first moment |
| PoolAdmission.BegunFits | omlx/engine_pool.py:446-554 | a load begins with that room, or with nothing else loaded and room for the weights, or without a ceiling; a model that was not loaded is refused only without that room |
| PoolAdmission.TtlByClock | omlx/engine_pool.py:1130-1183 | the check looks at exactly the loaded models, neither pinned nor being loaded, whose last use is their time to live or longer ago; it unloads those idle at their turn, counts the busy ones as used just now, and changes nothing else |
| EnginePool.Pool.FindLruVictim | omlx/engine_pool.py:558-584 | the victim is loaded, unpinned and idle at that moment, and least in (last access, id) among those; none only if there is none |
| EnginePool.Pool.UnloadEngine | omlx/engine_pool.py:586-655 | an engine is dropped and the counter falls by its size; nothing happens to an unloaded or unknown model |
| EnginePool.Pool.Admit | omlx/engine_pool.py:452-549 | admission ends for arbitrary readings; every eviction takes the least recently used idle, unpinned model of its own moment and only when the model did not fit then; caches are shed at most twice, when nobody could be evicted, and looked at again if that gained something; it exits by fit, too large without any shedding, or, after both sheddings, lone-model fit or insufficient memory, each justified by the last reading |
| EnginePool.Pool.AdmitUnderCeiling | omlx/engine_pool.py:446-549 | ceiling and headroom come from the first moment; without a ceiling nothing is evicted; otherwise the verdict is justified by the last reading |
| EnginePool.Pool.GetEngine | omlx/engine_pool.py:392-556 | unknown and job-managed models change nothing, a loaded engine is only touched, a refusal is justified, and a load begins only after an admission; every other model is unchanged or was evicted idle |
| EnginePool.Pool.StartOver | omlx/engine_pool.py:692-977 | what a load does once its engine has started or failed, with the fallbacks, the abort and the lost entry, and whether it goes on to wait for a drafter |
| EnginePool.Pool.LoadOver | omlx/engine_pool.py:1033-1061 | the marks and the lock are given up, and the answer is the engine registered then, an abort, or nothing |
| EnginePool.Pool.DiscoverModels | omlx/engine_pool.py:151-232 | loaded entries keep their engine and get their pin, the others are replaced or dropped |
| EnginePool.Pool.CheckTtl | omlx/engine_pool.py:1130-1183 | exactly the expired models are unloaded if idle, and refreshed if busy, at their own turn within the check |
| EnginePool.Pool.Shutdown | omlx/engine_pool.py:1080-1091 | everything is unloaded and the counter is zero, or what overlapping discoveries have lost |
| Limits.CeilingIsLeast | omlx/process_memory_enforcer.py:549-680 | without a lease the ceiling is the greatest value that is at most the static limit, the available memory or zero, the limit of the GPU if there is one, and, if it was measured and is not used up, the startup ceiling less the growth of other processes |
| Limits.GuardReadsAsOff | omlx/process_memory_enforcer.py:648-680 | an enabled guard reads as disabled if and only if no lease is held and the static ceiling or the available memory is down to zero |
| Limits.GrowthIsCharged | omlx/process_memory_enforcer.py:606-646 | the ceiling stays below the startup ceiling less the growth of other processes if and only if that growth is smaller than the startup ceiling or another limit is down to zero |
| Limits.LeaseIsChargedOnce | omlx/process_memory_enforcer.py:549-680 | what a bound worker takes out of its lease is not charged again: the ceiling is the unleased one minus the lease, and never below one |
| Limits.MoreUsageIsNoMilder | omlx/process_memory_enforcer.py:1098-1103 | of two levels that readings under the same ceiling call for, that of the greater usage is never lower |
| HotCaches.SheddingSuffices | omlx/process_memory_enforcer.py:973-1004 | caches that free what they are asked for, as far as they can, free the requested amount or everything |
| HotCaches.LargestFirstSorts | omlx/process_memory_enforcer.py:986-990 | caches are asked in order of falling size, each once |
| HotCaches.ShedHotCaches | omlx/process_memory_enforcer.py:973-1004 | the loop sheds exactly what the function does, and enough if caches are honest |
| Enforcer.LeaseReachesSchedulers | omlx/process_memory_enforcer.py:790-845 | a lease is granted exactly if it is positive and none is held; every scheduler then has the lowered ceiling, at least one, and after the release the unleased one |
| Enforcer.WorkerIsChargedOnce | omlx/process_memory_enforcer.py:824-826 | once a worker is bound, what it takes out of its lease is not charged again, at whatever tick it is read |
| Enforcer.LimitsAreTold | omlx/process_memory_enforcer.py:915-942 | propagation tells every scheduler the ceiling read then, the soft share of it in whole bytes or zero without a ceiling, and to pause unless the level is ok, and changes nothing else |
| Enforcer.MemoryEnforcer.PropagateMemoryLimit | omlx/process_memory_enforcer.py:915-942 | every scheduler gets the limits of the ceiling read at that moment, and admits exactly at level ok |
| Enforcer.MemoryEnforcer.BeginCheck | omlx/process_memory_enforcer.py:1067-1127 | a tick before its wait: limits propagated; the level is ok exactly without a ceiling or below its soft share, hard exactly from both shares on, by the ceiling and then the usage read at known ticks; propagated if new, with a target to get down to unless the level is ok |
| Enforcer.LevelIsOfFirstReadings | omlx/process_memory_enforcer.py:1084-1127 | the same of the state before and after, with the target: the soft share of that ceiling in whole bytes |
| Enforcer.MemoryEnforcer.Relieve | omlx/process_memory_enforcer.py:1127-1203 | the eviction loop ends for arbitrary readings; every eviction takes the least recently used idle, unpinned model while usage is over the target and another unpinned one is left; it stops by its last look for one of three reasons, and says whose requests and which loads are aborted |
| Enforcer.MemoryEnforcer.EndCheck | omlx/process_memory_enforcer.py:1127-1227 | a tick after its wait: relief, then the level that the usage and the ceiling read last call for |
| Enforcer.ReliefSpares | omlx/process_memory_enforcer.py:1127-1203 | relief unloads no pinned model and leaves an unpinned one; at the end usage was seen at or below the target, or one unpinned model is left, or none is idle; at soft pressure only evicted models lose requests |
| Enforcer.ReliefAborts | omlx/process_memory_enforcer.py:1134-1203 | by its last look a relief aborts more than the requests of the models it evicted only at hard pressure with usage still over the target: then all requests of the loaded, unpinned models if one of them is idle, or else every load in progress |
| Enforcer.LevelIsOfLastReadings | omlx/process_memory_enforcer.py:1205-1227 | the level at the end is ok exactly without a ceiling or below its soft share, and hard exactly from both shares on, by the usage and the ceiling read last, at known ticks; a new level is propagated |
| PoolTicks.TickFollowsFirstReadings | omlx/process_memory_enforcer.py:1084-1203 | over any run, whatever falls into the wait of a tick: it relieves the pressure down to the soft share of its own first reading, as hard pressure exactly if the usage read then had reached both shares; below the hard share it aborts only the requests of the models it evicts and no load |
| PoolRuns.StepKeepsSafe | omlx/engine_pool.py:83-1183 | every operation, in any state that allows it, keeps counter, marks, loads and lock consistent, all schedulers told the same but those of engines whose load waits for a drafter, and admission paused while a tick waits for the lock |
| PoolRuns.RunIsSafe | omlx/engine_pool.py:83-1183 | so does every run |
| PoolRuns.LagIsExact | omlx/process_memory_enforcer.py:1081-1127 | schedulers are told something else than the level says exactly from a tick that finds no ceiling at a raised level until the next propagation, be it by a load that ends in between |
| PoolRuns.PinnedStays | omlx/engine_pool.py:392-1183 | a loaded, pinned model stays so through an operation if and only if that is none of a few named ones; no admission, expiry or relief takes it |
| PoolRuns.AskedIsExact | omlx/process_memory_enforcer.py:1176-1203 | a load in progress is asked to abort if and only if it was before, or its entry is loading when a tick at hard pressure finds nothing to evict; never one that holds the lock |
| PoolRuns.AskedNeverCompletes | omlx/engine_pool.py:950-971 | a load asked to abort before its engine has started registers nothing, whatever happens meanwhile |
| PoolRuns.CounterIsExact | omlx/engine_pool.py:151-1183 | the counter is the size of what is loaded throughout a run if and only if no engine starts for a load whose entry a discovery has taken away |
| PoolRuns.LossHappens | omlx/engine_pool.py:151-232 | a run of four operations after which nothing is loaded and the counter holds a model's size |
| PoolLoads.StartedAs | omlx/engine_pool.py:692-977 | whether a start registers an engine, which kind it is, whether it has a scheduler, and when its entry is relabelled as a text model, by the results of the at most two attempts and by whether a draft engine is set up |
| PoolLoads.LoadedAs | omlx/engine_pool.py:705-948 | over any run: the load of a request registers a vision engine exactly if the model is a vision model and either text was not asked for and the vision engine was the first one to start, or text was asked for, without a draft engine, and did not start; the entry is relabelled exactly if it was not asked for and only the text half started |
| PoolLoads.SameRequestAgain | omlx/engine_pool.py:431-444 | over any run: the same request right after its load is answered at once, with every engine in place, if and only if the load did not end with the vision engine of a model asked for as text; then it unloads that engine first |
| PoolRuns.Perform | omlx/admin/routes.py:2520-2536 | every operation of pool and enforcer, the unlocked reload among them, is the step its relation describes, the propagation after a start or a drafter included |
| PoolRuns.RunPool | omlx/engine_pool.py:83-1183 | running any operations on a new pool and enforcer gives a run in which each state follows from the one before by the operation performed, ending in the state of the objects, and all states are safe |
| BatchCache.PadEachTokens | omlx/turboquant_kv.py:363-400 | padding every row on the left keeps its tokens |
| BatchCache.StackTokens | omlx/turboquant_kv.py:308-345 | stacking two batches of different lengths keeps every row of both, in order |
| BatchCache.FilterTokens | omlx/turboquant_kv.py:298-306 | filtering selects whole rows |
| BatchCache.WriteTokens | omlx/turboquant_kv.py:204-217 | writing behind the longest row appends to every row |
| BatchCache.RollTokens | omlx/turboquant_kv.py:283-296 | rolling right padding to the left drops exactly the padding from the end of each row |
| BatchCache.AppendLaid | omlx/turboquant_kv.py:204-217 | an append at the largest offset keeps the row layout if and only if some row has no left padding, and then every row is extended by its new tokens |
| BatchCache.AppendOverwrites | omlx/turboquant_kv.py:204-217 | two requests of one and two tokens are merged and the longer is dropped: the next append overwrites the only token left |
| BatchCache.FullThroughOperations | omlx/turboquant_kv.py:298-345 | exactly when an extend or a filter leaves a row without left padding |
| BatchCache.MaskIsSafe | omlx/turboquant_kv.py:237-265 | a column the mask allows lies between the row's padding and the query's own position |
| BatchCache.MaskIsWindow | omlx/turboquant_kv.py:237-265 | a window of w lets a query see exactly the last w columns up to its own position, less those in the padding, and without one it sees all of them |
| BatchCache.MaskIsCausalIffUnpadded | omlx/turboquant_kv.py:237-265 | the mask is exactly causal for a row if and only if the row has no left padding |
| BatchCache.Cache.Merge | omlx/turboquant_kv.py:363-400 | a merged batch holds each request's tokens |
| BatchCache.Cache.Extend | omlx/turboquant_kv.py:308-345 | the rows of both batches, in order, with the longer length |
| BatchCache.Cache.Filter | omlx/turboquant_kv.py:298-306 | the selected rows, in the given order |
| BatchCache.Cache.Append | omlx/turboquant_kv.py:204-217 | the layout survives exactly if the batch has a full row, and then each row is extended |
| BatchCache.Cache.PrepareRight | omlx/turboquant_kv.py:271-281 | right padding is remembered if any row has some |
| BatchCache.Cache.Finalize | omlx/turboquant_kv.py:283-296 | pending right padding is cut off every row, once |
| BatchCache.Cache.Extract | omlx/turboquant_kv.py:347-361 | exactly the tokens of the request in that row |
| BatchCache.Serve | omlx/turboquant_kv.py:180-400 | after any sequence of extends, filters, trims and appends, extraction returns each request's logical tokens |
| Collector.BufferedIsLossless | omlx/output_collector.py:116-152 | the buffer is the latest output, except that it carries all new tokens and text in order and the latest of the errors |
| Collector.RequestOutputCollector.Put | omlx/output_collector.py:54-72 | the buffer is the merge, or the latest without aggregation |
| Collector.RequestOutputCollector.GetNowait | omlx/output_collector.py:74-88 | takes the buffer and leaves it empty |
| Collector.RequestOutputCollector.GetBegin | omlx/output_collector.py:90-105 | takes the buffer or blocks; the shared counter minus the own flag does not change |
| Collector.RequestOutputCollector.GetResume | omlx/output_collector.py:100-114 | the same for a wake-up |
| Collector.RequestOutputCollector.StopWaiting | omlx/output_collector.py:108-114 | the flag is lowered and the counter follows, once |
| Collector.RequestOutputCollector.Clear | omlx/output_collector.py:154-160 | the buffer is empty, the flag is down and the counter follows |
| Collector.RunIsFaithful | omlx/output_collector.py:17-160 | in every run over any number of collectors the outputs taken are merges of consecutive puts, these and the buffered ones are all the puts, and a raised flag means a blocked get |
| Collector.StepIsExact | omlx/output_collector.py:90-114 | where a flag is up exactly while its one get is blocked, a step keeps it so if and only if it is no second get and no clear under a blocked one |
| Collector.ExactIffSole | omlx/output_collector.py:90-160 | throughout a run, if and only if that holds of every step of it |
| Collector.Interleave | omlx/output_collector.py:17-160 | running any steps on any number of collectors gives consumers what these lead to one after another, which is what LosslessDelivery calls received, leaves those buffers and flags, and the shared counter is the number of flags |
| Collector.OverlappingGetsHideAWaiter | omlx/output_collector.py:90-114 | of two or more blocked gets the first to be served lowers the flag while the others stay blocked |
| Collector.ReceivedCarriesSources | omlx/output_collector.py:116-152 | what consumers received carries everything it was merged from |
| Collector.ReceivedIsCollected | omlx/output_collector.py:74-114 | what counts as received is what the steps of a collector's consumers took, in that order; clear takes nothing |
| Collector.LosslessDelivery | omlx/output_collector.py:54-160 | received tokens and text followed by the buffered ones are all that was put, in order, if and only if clear has discarded none |
| EngineCore.DeliveryIsSafe | omlx/engine_core.py:300-349 | the guarantee that a set event means a terminal output survives an output exactly if it does not bury a finished one |
| EngineCore.DistributionIsSafe | omlx/engine_core.py:300-349 | it survives a whole step, output by output, exactly if none of its outputs buries a finished one |
| EngineCore.TellingIsSafe | omlx/engine_core.py:462-502 | it survives an abort, after which the request has a finished output and its event |
| EngineCore.AbortingIsSafe | omlx/engine_core.py:504-536 | and an abort of every request |
| EngineCore.FailingIsSafe | omlx/engine_core.py:341-357 | the failed requests, and no others, get a terminal output and their event |
| EngineCore.EngineCore.Distribute | omlx/engine_core.py:300-349 | the loop over the outputs of a step is their distribution one by one; EngineFeed says what that brings |
| EngineCore.EngineCore.AbortAll | omlx/engine_core.py:504-536 | every request gets an error on top of what was buffered, every event is set, and their number is returned |
| EngineCore.EngineCore.FailAll | omlx/engine_core.py:341-357 | the loop over the failed requests is their failing one by one |
| EngineCore.EngineCore.Conclude | omlx/engine_core.py:645-690 | draining reports the buffered error or output, and all three tables lose the request |
| EngineCore.EveryEventIsKept | omlx/engine_core.py:271-690 | in every interleaving the guarantee holds throughout, between the outputs of a step as well, if and only if no output buries a finished one |
| EngineCore.SchedulerBuriesNothing | omlx/engine_core.py:300-349 | a scheduler that sends nothing after a finish buries nothing |
| EngineCore.EveryResultIsConclusive | omlx/engine_core.py:645-690 | then every generate() woken by its event comes back with a finished output or an error |
| EngineFeed.RunAgrees | omlx/engine_core.py:271-690 | over every run the collector, the sent count and the event of every request are those of an account kept without the tables: outputs of steps by the interval, statuses of aborts and failures, and takes |
| EngineFeed.NothingIsLost | omlx/engine_core.py:300-349 | so handed and held together carry all that was brought, for every run and request |
| EngineFeed.StepBringsAll | omlx/engine_core.py:304-307 | with an interval of one a step brings all outputs for a request, in their order |
| EngineFeed.FinishedReaches | omlx/engine_core.py:308-326 | with any interval, over any run, every finished output of a step for a known request is among the outputs merged in its collector, and its event is set |
| EngineFeed.GenerateGetsTheRest | omlx/engine_core.py:645-690 | an output that a woken generate() comes back with completes what was handed over before |
| EngineFeed.Run | omlx/engine_core.py:271-690 | any operations on a new engine: for every request it knows in the end, what the replies have handed to its consumer and what its collector holds carry the tokens and text of everything brought to it since it was added, in order; tables and answers are those the operations lead to, and results are conclusive |
| AnthropicStream.Emitter.Open | omlx/server.py:3927-3972 | after it a block of the wanted kind is open, and one of the other kind was closed |
| AnthropicStream.Emitter.Show | omlx/server.py:3918-3975 | the client holds the deltas so far and this one |
| AnthropicStream.ShowChunk | omlx/server.py:3918-3975 | one output shows its thinking, then its content unless blank text precedes tool calls |
| AnthropicStream.BlankIsStripped | omlx/server.py:3946-3960 | text is blank exactly if stripping leaves nothing |
| AnthropicStream.Body | omlx/server.py:3900-4043 | all outputs and the final flushes are shown in order |
| AnthropicStream.Closing | omlx/server.py:4077-4129 | the open block is closed, an empty text block stands for an empty message, and tool blocks follow contiguously |
| AnthropicStream.Stream | omlx/server.py:3825-4173 | a strict client receives exactly the message, one block per run of deltas of one kind and one per tool call, indices in order, never two open; it fails exactly if the engine yields nothing |
| ResponsesStream.Emitter.OpenReasoning | omlx/server.py:5068-5097 | the reasoning item is opened once, and content already begun makes the stream irregular |
| ResponsesStream.Emitter.CloseReasoning | omlx/server.py:5099-5136 | the reasoning item is completed with the accumulated text and its index is used up |
| ResponsesStream.Emitter.OpenMessage | omlx/server.py:5138-5173 | the message item is opened once, after the reasoning item |
| ResponsesStream.Emitter.Think | omlx/server.py:5185-5212 | a thinking delta reaches the open reasoning item, or breaks the order |
| ResponsesStream.Emitter.Speak | omlx/server.py:5213-5253 | a content delta closes reasoning and reaches the message item: the events gain exactly one text delta with what the filter lets through, or none if it holds everything back |
| ResponsesStream.Chunks | omlx/server.py:5175-5253 | after all outputs the client is inside the right item, or has rejected exactly if thinking followed content; the deltas sent are the shown parts of the content and the pieces of thinking, in order |
| ResponsesStream.Finish | omlx/server.py:5245-5530 | the remaining text is sent, or the late one, the items are completed with the accumulated texts, tool calls follow, and the response is completed |
| ResponsesStream.Calls | omlx/server.py:5395-5471 | each function call is one item, added and done once, at the next index |
| ResponsesStream.Stream | omlx/server.py:5005-5530 | on every run: sequence numbers are 1, 2, 3; the text deltas are the shown parts of the chunks with content, then, unless the engine breaks off, the flushed and the held text, or only the late one where content is not streamed; the thinking deltas are the pieces of thinking; each call has one delta of its arguments. A strict client accepts the stream if and only if, where reasoning and content are streamed, no thinking follows content and the final flush brings none, and then receives the reasoning, the message and the calls |

## Left out

- MLX, Metal, psutil and ctypes calls, FP8 and codec numerics: uninterpreted functions or readings.
- Quantised-state variants of the cache (packed words, norms, codebooks): a state is its rows of entries.
- Spare capacity of the inherited cache write, the single-request integer offset, and caches whose keys are still absent.
- BatchCache.Cache.PrepareRight: left padding and lengths passed to prepare are not modelled, only right padding.
- BatchCache.Serve: batches are never empty and appends only happen while some row is full, the case in which the code keeps its rows.
- Replay.Materialize: each output is one recorded operation on raw inputs; chained operations, of which the dry run keeps only the last, splits by index list, literals and slices cut along several axes are not covered.
- Replay.TrackedShape: transforms are a datatype, not parsed from strings.
- ChunkedRows.LoadRows: bytes decode element by element, and dimensions after the first are one row width.
- LazyIndex.Use: no operation names a scale key while it is hidden; only Lookup covers that case.
- Shards.WriteShards: which tensors are vision, audio or draft-head tensors, and what the quantiser returns for each, are inputs; the index's total size and the configuration files are not modelled.
- Shards.EveryArrayOnce: output keys are distinct; when they collide, the weight map is still shown to name the last file with the key.
- QuantNames.RuleIsSound: the name patterns and widths of the single rules are definitions, taken from the program as they are; what is proved holds of all of them. Letters are lowered and digits read in ASCII only, and levels without full protection are not modelled, since every level has it.
- Float rounding in bits per weight: exact rationals instead.
- PoolRuns.RunPool: an admission, a time-to-live check and the relief of pressure are one segment each, so that discoveries, pins, lease changes and the administration's unloads do not fall between two of their evictions; nor does anything fall into the wait of an unlocked unload.
- EnginePool.Pool.UnloadEngine: its wait for memory to settle is part of it.
- EnginePool.Pool.StartOver: engine kinds are reduced to what decides fallbacks; load-time statistics are left out.
- EnginePool.Pool.Admit: pin flags do not change while an admission waits; the wait itself is a reading.
- EnginePool.Pool.DiscoverModels: reading model folders and settings gives an arbitrary discovery.
- Enforcer.MemoryEnforcer.BeginCheck: hot-cache balancing, store caps, the usage window and logging are left out; the startup baseline is a reading.
- PlanRoom.ExactIffNoneExposed: a cap below the room, or a goal between what the base reaches and the room when some exposed floor is out of the sensitivity pass's reach, is covered by ExactIffNoneMissed and LedgerInClosedForm only, which speak of the floors that were replaced.
- EngineFeed.Run: a collector is represented by its buffer, whose own behaviour Collector proves; delayed clean-up is one step.
- BatchCache.MaskIsSafe: a batch of one request uses the array library's own mask.
- AnthropicStream.Stream: parser and filter results are inputs, and so is the run of outputs up to the finished one; token counts, search blocks, error events and keep-alives are left out.
- ResponsesStream.Stream: parser and tool-extraction results are inputs; storing the response and the text of failures are left out.
- Sensitivity measurement, calibration and model sanitizers: a score map and a sanitizer's operations are inputs.
- Settings, metrics, command line, logging, sampling and web endpoints: they would add only easy members.
