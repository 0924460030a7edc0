# Cache-delay evaluation: models and proofs

This project models the schedulers, search oracles and trace analyses of the `cache_delay_eval` package in Dafny and
proves what they promise for every input. `dafny verify dfyconfig.toml` verifies all of it.

- **The simulated engine and router** (`routing_sim.py`). `BlockPool`, `Scheduling`, `ScheduleSteps`, `ScheduleLoops`,
  `FinishSteps` and `FinishLoops` give the block pool and both halves of a step as functions on engine states, with
  the invariant that holds inside every loop. `WorkConserving` and `Caching` say what a step plans and admits and what
  its prefix cache gains and loses; `ScheduleTheorems`, `ProgressBound` (file `Progress.dfy`), `DispatchOrder` and
  `IdealHit` prove progress, order and the cache bound of one engine. `RouterCell` and `Simulation` make the whole
  replay a protocol of arrivals, step ends and index trims in any order, under any routing policy. `EngineObject`
  (file `Engine.dfy`) and `Simulate` are the program itself, an engine object and an event loop over a heap, proved
  equal to those functions.
- **The waiting-order oracle** (`toy_oracle.py`), modules `Toy*`: the transition, its inductive invariant, what it
  plans and caches, limits, legal orders, and the exhaustive search with its visited set.
- **The eviction oracle** (`eviction_oracle.py`), modules `Eviction*` with `Division`, `OrderedChoices` and
  `OutputGaps`: the replay that stops at an open victim choice, and the search that restarts it on longer action
  prefixes.
- **Prefix history** (`analyze_qwen_temporal.py`, `validate_qwen_cpu.py`), modules `PrefixOrder`, `PrefixIndex`,
  `PrefixRecency` and `Contexts`: sorted neighbours against exhaustive comparison, and the ordered dictionary of
  witnesses.
- **Single programs**: `Hotspot` (`HotspotDetector`), `Lineage` (`attach_lineage`), `Overlap`
  (`nonoverlap_representatives`), `SerialLru` (`serial_lru`), `Materialise` (`materialize`), `LiveRouter` (`send`).

Times are integers and a step's cost is an arbitrary function of the batch it computes. A request is its position in
the trace. Digests are used through the identities they stand for. Every request is assumed to fit into the pool alone
(`FitAlone`), which `eviction_oracle.py` and `toy_oracle.py` check and `routing_sim.py` takes for granted.

## Model

| member | source | states |
|---|---|---|
| `BlockPool.ReleaseValid` | src/cache_delay_eval/routing_sim.py:136-141 | Releasing a table gives back exactly its references: the pool stays exact for what is still held, newly free blocks join the back of the queue, and keys stay. |
| `BlockPool.ReleaseOrder` | src/cache_delay_eval/routing_sim.py:136-141 | The blocks nobody references any more are queued behind the free ones with the last block of the table first, so that of a prefix the tail is allocated again first. |
| `BlockPool.TakeOneValid` | src/cache_delay_eval/routing_sim.py:128-134 | The popped block was held by nobody, loses its key in both directions of the cache, and the pool stays exact with it held once. |
| `BlockPool.AdoptValid` | src/cache_delay_eval/routing_sim.py:203-212 | Taking over cached blocks adds one reference each, changes no key, and uses at most the `evictable` free blocks counted before. |
| `Common.CeilBlocksMeans` | src/cache_delay_eval/routing_sim.py:162-162 | `need` rests on the least number of blocks that hold the tokens. |
| `ScheduleSteps.AdmitGrows` | src/cache_delay_eval/routing_sim.py:197-220 | After an admission that passed the fit test the invariant holds and the `_grow` whose result is ignored has its blocks; the queue order is unchanged and the admitted request is the next to plan. |
| `ScheduleSteps.PreemptKeepsInv` | src/cache_delay_eval/routing_sim.py:182-187 | Preempting the tail keeps the whole engine invariant and `running ++ waiting`, leaves the plan valid for the remaining requests, and only adds free blocks. |
| `ScheduleLoops.MakeRoom` | src/cache_delay_eval/routing_sim.py:181-195 | The nested preemption loop keeps the invariant and the order, and ends with the request planned or itself preempted and gone from the running queue. |
| `ScheduleLoops.RunLoopSteps` | src/cache_delay_eval/routing_sim.py:178-195 | The two nested loops unfold into single steps: stop, plan the next request, or evict the tail and try again. |
| `ScheduleLoops.Schedule` | src/cache_delay_eval/routing_sim.py:172-220 | From any state in the invariant, `schedule` ends in the invariant for its plan and leaves the sequence `running ++ waiting` unchanged; what it plans, admits and preempts is fixed by the next four rows. |
| `WorkConserving.WorkConserved` | src/cache_delay_eval/routing_sim.py:196-220 | Unless somebody was preempted, the queue is empty, the budget is used up, every slot is taken, or the head of the queue lacks blocks in the final state: the blocks for its chunk beyond its longest cached prefix, plus the unreferenced ones in that prefix, outnumber the free ones. |
| `WorkConserving.ChunksGreedy` | src/cache_delay_eval/routing_sim.py:178-194 | Running requests are served in order, each for what it still has to compute or what the chunks before have left of the budget, and none is left out unless the budget is used up. |
| `WorkConserving.PreemptsIffShort` | src/cache_delay_eval/routing_sim.py:181-195 | A step preempts if and only if its running requests, sharing the budget in order, ask for more blocks than are free; nobody is then admitted. |
| `WorkConserving.OfferMeaning` | src/cache_delay_eval/routing_sim.py:198-207 | The head of the queue, new or back from a preemption with outputs, is offered its longest cached prefix short of its last token and as many further tokens as the budget allows, and fits if and only if there are blocks for both. |
| `ScheduleTheorems.ScheduleServesHead` | src/cache_delay_eval/routing_sim.py:172-220 | With unfinished requests that each fit alone the plan is not empty and its first chunk is for the head of the order, which is never preempted. |
| `ScheduleTheorems.ScheduleOutputs` | src/cache_delay_eval/routing_sim.py:172-220 | A step plan produces no output and finishes nothing; a planned request keeps its preemption count and its computed tokens, so a victim is never in that step's plan. |
| `ScheduleTheorems.ScheduleWithinBudget` | src/cache_delay_eval/routing_sim.py:174-220 | The tokens planned over both loops never exceed the token budget. |
| `ScheduleTheorems.BatchConserves` | src/cache_delay_eval/routing_sim.py:221-227 | The batch handed to the cost model accounts for every planned token and every planned request exactly once. |
| `ScheduleTheorems.BatchEntries` | src/cache_delay_eval/routing_sim.py:221-227 | The batch has the decodes with the sum of their contexts, and each other chunk in plan order with its new tokens and the tokens already computed. |
| `ProgressBound.ServedStep` | src/cache_delay_eval/routing_sim.py:230-245 | One round of `finish_step` keeps the invariant for the rest of the plan and changes exactly the served request: its tokens, its output, its first token and completion with the calls made for them; only a request with its last output leaves the order. |
| `ProgressBound.RoundLowersPotential` | src/cache_delay_eval/routing_sim.py:172-245 | A schedule and finish round with unfinished work has a plan and strictly lowers the work left, despite recompute preemption. |
| `DispatchOrder.NextInOrder` | src/cache_delay_eval/routing_sim.py:196-240 | If the marked requests are an initial run of the dispatched ones and include all finished ones, the first unmarked request in the queues is the next dispatched one. |
| `IdealHit.ScheduleCredited` | src/cache_delay_eval/routing_sim.py:194-219 | Scheduling keeps every recorded hit within the infinite cache's credit over the requests dispatched before, with the origin of every cached key and the dispatch order that this rests on. |
| `Caching.ServedCaches` | src/cache_delay_eval/routing_sim.py:151-158 | After a chunk is served every full block its request has computed is cached under the request's key, whether it stays or leaves; nothing cached before is lost and nothing else is added. |
| `Caching.FinishCaches` | src/cache_delay_eval/routing_sim.py:230-245 | At the end of `finish_step` every full block computed by any chunk is cached, everything cached before still is, at the same block, and every new key is one of those. |
| `Caching.TakeLoses` | src/cache_delay_eval/routing_sim.py:128-134 | An allocation loses exactly the keys of the blocks it hands out. |
| `Caching.ScheduleLoses` | src/cache_delay_eval/routing_sim.py:160-219 | `schedule` caches nothing, and a key leaves the cache only because its own block was handed out to a request of the plan. |
| `Caching.HitsAfterServing` | src/cache_delay_eval/routing_sim.py:198-205 | A request that begins with the first m computed keys of a served one, looked at while none of the keys cached then is lost, is offered at least min(m, full blocks short of its last token) blocks, and exactly these when its next key is not cached. |
| `Caching.SharedPromptHits` | src/cache_delay_eval/routing_sim.py:105-113 | The same for two requests whose trace prompts share their first m block ids. |
| `Caching.KeyMeans` | src/cache_delay_eval/routing_sim.py:105-113 | Two blocks share a key if and only if both are prompt blocks with the same id or they are the same block of the same request. |
| `RouterCell.EndKeeps` | src/cache_delay_eval/routing_sim.py:501-517 | The end of a step, with its callbacks and the next step, keeps `bs`, `queued` and the in-flight keys equal to what the engine's queues say, and lowers the work left. |
| `Timing.FinishRecords` | src/cache_delay_eval/routing_sim.py:230-245 | `finish_step` adds an output exactly where a chunk ends the current sequence, stamps the first output and the last with the end of the step, and changes no other record. |
| `Simulation.StepKeeps` | src/cache_delay_eval/routing_sim.py:461-521 | Every arrival at any instance, every step end and every trim keeps the invariant of the whole system. |
| `Simulation.RunIsFinite` | src/cache_delay_eval/routing_sim.py:454-521 | Every run, whatever the policy and the order of events, has at most as many events as the requests have prompt and output tokens plus the scheduled trims, and ends in the invariant. |
| `Simulation.QuietIsComplete` | src/cache_delay_eval/routing_sim.py:461-521 | When no event is left every request has its hit, first token and completion, and on every instance `bs`, `queued` and the in-flight keys are zero and all blocks are free. |
| `Simulation.HitWithinIdeal` | scripts/run_reuse_sweep.py:38-49 | In every reachable state each recorded engine hit is at most what one infinite cache credits the request over the requests dispatched before it. |
| `Simulation.HitsWithinIdeal` | scripts/run_reuse_sweep.py:38-49 | For requests dispatched in trace order the sum of all recorded hits is at most the ideal sum. |
| `Simulation.InDispatchOrder` | src/cache_delay_eval/routing_sim.py:230-240 | On every instance, in every reachable state, the queue is the unfinished dispatched requests in dispatch order, and first admissions and first tokens are initial runs of the dispatch order. |
| `EngineObject.Engine.Schedule` | src/cache_delay_eval/routing_sim.py:172-228 | The object's loops over its queues, table, reference counts and cache compute exactly the plan, the batch and the state of `ScheduleLoops.Schedule`, which the `WorkConserving` and `Caching` rows characterise. |
| `EngineObject.Engine.FinishStep` | src/cache_delay_eval/routing_sim.py:230-245 | The object's loop computes exactly the state and, in order, the callbacks of `FinishLoops.FinishStep`, whose cache contents are those of `Caching.FinishCaches` and whose records those of `Timing.FinishRecords`. |
| `Simulate.Replay` | src/cache_delay_eval/routing_sim.py:427-521 | The event loop over the heap ends for every placement, hit answer, step cost and trim interval; every request is then complete on its instance with a hit within the ideal credit, and `bs` and `queued` are zero. Its history lists the events in order of time: each arrival at its time, each step end exactly the cost of its batch after the event that started the step, which is the previous step end there or the arrival that woke the idle instance; and every first token and completion is stamped with the end of a step that served the request. |
| `Timing.StampsExplained` | src/cache_delay_eval/routing_sim.py:505-517 | In every history, after any number of events, each stamp is the end of a step that served the request. |
| `Simulate.IdealFraction` | scripts/run_reuse_sweep.py:38-49 | The loop over one growing set computes the sum of the credits over the requests before, and the sum of the prompt lengths. |
| `ToyOrders.LegalOrders` | src/cache_delay_eval/toy_oracle.py:427-427 | The permutations tried are exactly the legal waiting orders. |
| `ToyOrders.LegalByCount` | src/cache_delay_eval/toy_oracle.py:186-188 | The test by length and set accepts exactly the permutations of the waiting requests. |
| `ToyRuns.StepInv` | src/cache_delay_eval/toy_oracle.py:184-299 | Every legal waiting order keeps the inductive invariant. |
| `ToyRuns.NeverStuck` | src/cache_delay_eval/toy_oracle.py:252-256 | A batch is empty only if nothing runs, nothing waits and an arrival is to come: "No legal progress" is unreachable. |
| `ToyRuns.StepUsesRemaining` | src/cache_delay_eval/toy_oracle.py:252-299 | Every step of an unfinished workload moves time forward and uses up a token or an arrival. |
| `ToyRuns.ReplayBound` | src/cache_delay_eval/toy_oracle.py:302-314 | A legal run has at most as many events as there are tokens and requests, and strictly fewer while it is unfinished: "Finite service bound exceeded" is unreachable. |
| `ToyLimits.InvChecks` | src/cache_delay_eval/toy_oracle.py:142-181 | The inductive invariant implies every assertion of `check_state`. |
| `ToyLimits.ViolationPersists` | src/cache_delay_eval/toy_oracle.py:343-357 | A violated limit is violated in every legal successor, so pruning loses nothing. |
| `ToyLimits.BaselineMeets` | src/cache_delay_eval/toy_oracle.py:330-340 | A finished workload meets the limits derived from it. |
| `ToyLimits.AllowedMeans` | src/cache_delay_eval/toy_oracle.py:331-333 | A value is above its allowance exactly if it exceeds the baseline value by more than the percentage and by more than the tolerance. |
| `ToyLimits.ViolatesMeans` | src/cache_delay_eval/toy_oracle.py:330-357 | The limits of a baseline are violated exactly if some request is behind it by more than the slack in completion, decode duration or an output gap, one still open included. |
| `ToyLimits.LatencyMeans` | src/cache_delay_eval/toy_oracle.py:317-320 | The objective is the sum of the first output times less the sum of the arrivals. |
| `OutputGaps.GapsAre` | src/cache_delay_eval/toy_oracle.py:339-339 | The gaps are the differences of consecutive output times, one fewer than the outputs. |
| `ToyPlanning.BatchServices` | src/cache_delay_eval/toy_oracle.py:200-250 | The batch: the running list, extended by the first m of the order, is served in its order; a service is a prefill as long as prompt tokens are left, of the minimum of chunk, remaining budget and prompt left, and otherwise one output token; nobody running is left out unless the services before use up the budget, whoever is admitted is served, and admission ends only for want of requests, slots, budget or room for the next one. |
| `ToyPlanning.FitsIffRoom` | src/cache_delay_eval/toy_oracle.py:121-139 | A request fits exactly if its missing prompt and its whole output find room beside the blocks that are referenced or hit. |
| `ToyPlanning.EvictOldest` | src/cache_delay_eval/toy_oracle.py:236-240 | Eviction takes as few blocks as make the room, the least recently touched unreferenced ones. |
| `ToyPlanning.AdmitStamps` | src/cache_delay_eval/toy_oracle.py:229-249 | An admitted request starts with its hits computed and its table touched block by block, hits first; no other block is touched. |
| `ToyPlanning.ReleaseStamps` | src/cache_delay_eval/toy_oracle.py:280-287 | A completed request leaves its blocks touched in table order and touches nothing else. |
| `ToyCaching.StepKeepsCache` | src/cache_delay_eval/toy_oracle.py:184-290 | From one state to the next no block id comes back, and every computed block that is still there, referenced or not, is computed and called as before. |
| `ToyCaching.BatchWrites` | src/cache_delay_eval/toy_oracle.py:266-290 | After a batch every token its requests have computed is in their blocks under its whole prefix, also for the requests that complete and leave. |
| `ToyCaching.SharedPrefixHits` | src/cache_delay_eval/toy_oracle.py:106-118 | A prompt that begins with m computed tokens of another request, prompt or output, finds at least m blocks. |
| `ToyPlanning.StepTime` | src/cache_delay_eval/toy_oracle.py:252-290 | A step ends after the overhead and its longest service and records each output and completion at that time; an empty step moves to the next arrival of a request not admitted. |
| `ToyStepper.PrefixBlocks` | src/cache_delay_eval/toy_oracle.py:106-118 | The sorted `setdefault` index and the walk give, position by position, the least block that holds the prompt's prefix, up to the first prefix no block holds. |
| `ToyStepper.EvictUntil` | src/cache_delay_eval/toy_oracle.py:236-240 | The eviction loop finds an unreferenced victim each time and removes the least by touch and id until there is room; referenced blocks stay. |
| `ToyStepper.Transition` | src/cache_delay_eval/toy_oracle.py:184-299 | The two refusals happen exactly for an illegal order and for a finished workload; otherwise the loops compute the next state, whose services, blocks and times the `ToyPlanning` rows characterise and which satisfies `check_state`. |
| `ToyStepper.Replay` | src/cache_delay_eval/toy_oracle.py:302-314 | Without script the replay finishes, first come first served; a script is accepted exactly if it is a legal run to the end, and then gives that run's state. |
| `ToySearch.ExhaustedIsBest` | src/cache_delay_eval/toy_oracle.py:407-434 | If everything visited is settled, no run within the limits from a handled state ends below the incumbent; the visited set and the pruning lose none. |
| `ToySearch.Search.Visit` | src/cache_delay_eval/toy_oracle.py:407-432 | The recursive search keeps the incumbent a legal replay within the limits and, while exact, the certificate that everything seen and not open is settled. |
| `ToySearch.Solve` | src/cache_delay_eval/toy_oracle.py:394-437 | The baseline is the first come first served run; with `exact` no legal run within its limits has a smaller sum of first-token latencies than `best`, which its actions replay; the counters add up, and without `exact` the state limit was reached. |
| `OrderedChoices.ArrangementsComplete` | src/cache_delay_eval/eviction_oracle.py:332-332 | The generated victim lists miss none of the duplicate-free lists of that length over the candidates. |
| `OrderedChoices.ArrangementsCount` | src/cache_delay_eval/eviction_oracle.py:149-149 | `math.perm` counts them. |
| `EvictionPool.AllocateKeeps` | src/cache_delay_eval/eviction_oracle.py:140-171 | Allocation with room keeps references, free list and ownership exact for every script; it fails only for an illegal victim list, and never without a script. |
| `EvictionPool.ChoiceIsOpen` | src/cache_delay_eval/eviction_oracle.py:147-159 | The replay stops for a choice exactly if at least two victim lists exist and the script has no answer left, and it then offers all of them; with fewer than two the stock victims are taken. |
| `EvictionNames.AllocateMeans` | src/cache_delay_eval/eviction_oracle.py:140-171 | An allocation hands out the first free blocks with each cached one replaced by the next victim, the stock ones unless at least two lists are possible and the script names another. |
| `EvictionNames.HitsMeaning` | src/cache_delay_eval/eviction_oracle.py:173-182 | The lookup finds the first block of each prompt prefix, for as many leading blocks as possible short of the one with the last token. |
| `EvictionRound.MakeRoomKeeps` | src/cache_delay_eval/eviction_oracle.py:218-227 | The preemption loop rolls back no planned service; the request then has its room or was preempted itself, and the first running request never is. |
| `EvictionRound.ScheduleKeeps` | src/cache_delay_eval/eviction_oracle.py:209-254 | Planning an iteration keeps the state valid and serves the head of the queue whenever there is one. |
| `EvictionPlanning.PlanMeans` | src/cache_delay_eval/eviction_oracle.py:209-254 | Running requests are served in order, each as much as budget, chunk and target allow; somebody gives way if and only if they want more blocks than are free, and then nobody is admitted; otherwise admission goes on until the queue is empty, the budget spent, the slots taken or the next prompt does not fit. |
| `EvictionPlanning.MakeRoomFewest` | src/cache_delay_eval/eviction_oracle.py:218-227 | The loop preempts from the tail as few requests as free the blocks, or as many as it takes to reach the request itself. |
| `Division.CeilMeans` | src/cache_delay_eval/eviction_oracle.py:217-217 | The rounded quotient is the least number of blocks of that size that hold the tokens. |
| `EvictionPlanning.ReleaseQueues` | src/cache_delay_eval/eviction_oracle.py:130-138 | Released blocks nobody else holds become free, those without identity in front and the others behind, each time the last block of the table first. |
| `EvictionNames.ScheduleNames` | src/cache_delay_eval/eviction_oracle.py:209-254 | Planning gives no block an identity and takes one away only by allocating the block to a served request. |
| `EvictionPlanning.ArrivedJoin` | src/cache_delay_eval/eviction_oracle.py:205-208 | Exactly the requests arrived by now and not queued before join the back of the queue, and the running and waiting requests together stay in order of arrival. |
| `EvictionPlanning.IterationTime` | src/cache_delay_eval/eviction_oracle.py:255-292 | A batch ends after its cost and each record advances by its own service at that time; an empty batch moves to the next arrival. |
| `EvictionPlanning.CostByKind` | src/cache_delay_eval/eviction_oracle.py:268-269 | The affine cost is the prompt tokens and the output tokens of the batch, each at its own price. |
| `EvictionNames.ServeNames` | src/cache_delay_eval/eviction_oracle.py:277-282 | After a service exactly the full prompt blocks computed are called after their prompt prefixes and no other block's identity changes. |
| `EvictionNames.BatchNames` | src/cache_delay_eval/eviction_oracle.py:277-291 | The same for a whole batch, also for requests that complete and leave; the tables of the running requests stay named. |
| `EvictionIterate.IterateKeeps` | src/cache_delay_eval/eviction_oracle.py:201-304 | Every iteration keeps what `validate_state` asserts, fails only for reasons outside the scheduler, and lowers the tokens to come. |
| `EvictionNames.StartNames` | src/cache_delay_eval/eviction_oracle.py:120-123 | At the start nobody runs and no block is referenced, so the naming of `EvictionNames.IterateNames` holds from there on. |
| `EvictionNames.IterateNames` | src/cache_delay_eval/eviction_oracle.py:201-293 | Every iteration keeps each running request's computed full prompt blocks called after their prefixes. |
| `EvictionNames.SharedPrefixFound` | src/cache_delay_eval/eviction_oracle.py:173-182 | A prompt that shares its first m blocks with what a running request has computed finds at least min(m, full blocks short of its last token) blocks. |
| `EvictionReplay.ReplaySound` | src/cache_delay_eval/eviction_oracle.py:201-306 | For every script and limits the iteration bound, the zero-service cycle, the stuck scheduler and the allocation without room are unreachable; a finished replay is in the invariant. |
| `EvictionReplay.IterationsBounded` | src/cache_delay_eval/eviction_oracle.py:126-128 | Any replay, idle jumps included, has at most as many iterations as the requests have tokens, a hundredth of the coded bound. |
| `EvictionReplay.BaselineFinishes` | src/cache_delay_eval/eviction_oracle.py:201-310 | The stock replay finishes for every valid instance whose batch costs are known; with a cost table the only failure is a missing cost. |
| `EvictionReplay.ReplayExtends` | src/cache_delay_eval/eviction_oracle.py:321-339 | Extending a script that finished or failed never gives a finished replay, and an open choice is answered by a legal victim list or not at all. |
| `EvictionReplay.ReplayContinues` | src/cache_delay_eval/eviction_oracle.py:151-159 | Answering the open choice with one of the offered lists never ends in the two script errors. |
| `EvictionBaseline.LatePersists` | src/cache_delay_eval/eviction_oracle.py:294-304 | A deadline broken at some time is broken at every later time. |
| `EvictionBaseline.AllowedMeans` | src/cache_delay_eval/eviction_oracle.py:103-106 | Rounding down changes nothing: the integer allowance is exceeded exactly if the rational one is. |
| `EvictionBaseline.LateMeans` | src/cache_delay_eval/eviction_oracle.py:102-112 | The deadlines of a baseline are missed exactly if some request is behind it by more than the slack in completion, decode duration or an output gap. |
| `EvictionBaseline.BaselineReproduced` | src/cache_delay_eval/eviction_oracle.py:316-319 | Replaying the recorded stock choices under the limits derived from the baseline gives the baseline again. |
| `EvictionBaseline.PruningExact` | src/cache_delay_eval/eviction_oracle.py:294-304 | For every script the replay under limits finishes if and only if the unlimited one finishes and its end keeps the limits, and then the two are equal. |
| `EvictionRun.Replayer.Run` | src/cache_delay_eval/eviction_oracle.py:115-310 | The object's loops over blocks, free list, progress, queues and time compute exactly `FullReplay`, errors and open choices included; the `EvictionNames` and `EvictionPlanning` rows characterise each of its iterations. |
| `EvictionSearch.LatencyMeans` | src/cache_delay_eval/eviction_oracle.py:307-308 | The objective is the sum of the first output times less the sum of the arrivals. |
| `EvictionSearch.Solve` | src/cache_delay_eval/eviction_oracle.py:313-350 | With `exact` no script whose unlimited replay finishes within the baseline's limits has a smaller latency sum than `best`; without it the node limit was reached; it fails only for a missing batch cost. |
| `PrefixOrder.LcpSqueeze` | src/cache_delay_eval/analyze_qwen_temporal.py:36-44 | Of three sequences in lexicographic order the outer two share no more than either shares with the middle one. |
| `PrefixIndex.NeighboursSuffice` | src/cache_delay_eval/analyze_qwen_temporal.py:36-44 | The nearest neighbours in scope on both sides attain the longest common prefix of all rows in scope, also after skipping a component. |
| `PrefixIndex.ActivePrefixes.Query` | src/cache_delay_eval/analyze_qwen_temporal.py:65-81 | The bisection and the two walks find those neighbours in the sorted lists, so the answer is the best match of all rows held, with its witness and age. |
| `PrefixIndex.ActivePrefixes.Remove` | src/cache_delay_eval/analyze_qwen_temporal.py:57-63 | A held row is always found and exactly it is removed: "Expired prefix missing" is unreachable. |
| `PrefixRecency.PrefixRecency` | src/cache_delay_eval/analyze_qwen_temporal.py:84-113 | For every row, window and scope the answer is the best match over all rows strictly earlier and within the window; a window that is not positive is the only error. |
| `PrefixRecency.ExhaustivePrefix` | scripts/validate_qwen_cpu.py:206-220 | The brute-force table holds the longest prefix per window and scope. |
| `PrefixRecency.RecencyIsExhaustive` | scripts/validate_qwen_cpu.py:206-220 | Index and brute force agree in every window and scope. |
| `Contexts.OwnersOnce` | src/cache_delay_eval/analyze_qwen_temporal.py:140-144 | The ordered dictionary has one entry per component. |
| `Contexts.OwnersLast` | src/cache_delay_eval/analyze_qwen_temporal.py:131-144 | Read from the back it gives the last qualifying row of another component. |
| `Contexts.AddContextWitnesses` | src/cache_delay_eval/analyze_qwen_temporal.py:116-144 | For every row and variant the witness is the latest qualifying row by time and chat id among strictly earlier rows of other components, with its age; rows of equal time never see each other. |
| `Hotspot.ExcludedNext` | src/cache_delay_eval/routing_sim.py:337-353 | What one more verdict does to a class: a pass ends the exclusion, an alarm starts it exactly if the unbroken run it ends has reached twice the holders. |
| `Hotspot.HotspotDetector.Observe` | src/cache_delay_eval/routing_sim.py:326-331 | Arrivals and counts are exactly those of the trailing window of the whole history. |
| `Hotspot.HotspotDetector.Allowed` | src/cache_delay_eval/routing_sim.py:333-354 | The alarm is the failure of Equation 2 over the trailing window; a request is filtered exactly if it alarms and, since the class last passed, some unbroken run of alarms with hot no worse than cold was twice as long as the holders at its end; the allowed list is then the instances without the prefix, in order and never empty. |
| `Lineage.LeadsToOne` | src/cache_delay_eval/analyze_qwen_trace.py:107-129 | Following parents from a row leads to one root only. |
| `Lineage.AttachLineage` | src/cache_delay_eval/analyze_qwen_trace.py:107-135 | It raises exactly if some row is its own ancestor; otherwise the memoised walk gives every row the root and observed flag that following its parents one by one gives, and the groups are the rows of each root in trace order. |
| `Overlap.NonoverlapRepresentatives` | src/cache_delay_eval/audit_wildchat.py:75-88 | Union-find with path halving ends, and the kept set has exactly one history per connected component of the overlaps, with nothing greater in the component by messages, then rank. |
| `Overlap.NoOverlapKept` | src/cache_delay_eval/audit_wildchat.py:75-88 | No overlap pair joins two kept histories. |
| `SerialLru.RecencyOrdered` | src/cache_delay_eval/pattern_screen.py:42-44 | The recency order lists blocks by their last accesses. |
| `SerialLru.AccessKeepsLast` | src/cache_delay_eval/pattern_screen.py:42-47 | After any accesses the cache is the last blocks of the recency order, as many as its capacity allows. |
| `SerialLru.CacheInclusion` | src/cache_delay_eval/pattern_screen.py:20-47 | A smaller cache is the most recent part of a larger one. |
| `SerialLru.HitsTotalMonotone` | src/cache_delay_eval/pattern_screen.py:31-38 | Contiguous hits never fall with capacity. |
| `SerialLru.AbsentMonotone` | src/cache_delay_eval/pattern_screen.py:42-47 | Accesses that miss never rise with capacity. |
| `SerialLru.SerialLru` | src/cache_delay_eval/pattern_screen.py:20-56 | Hit rates, totals and oversized prompts are those of the caches so characterised, evictions plus the final size are the accesses that missed, and the errors occur exactly for a capacity below one, a request without blocks, or no requests. |
| `Materialise.DecodeEncode` | src/cache_delay_eval/materialize.py:27-35 | A block's tokens read back as its identity. |
| `Materialise.EncodeDecode` | src/cache_delay_eval/materialize.py:27-35 | Every block over the alphabet is written by the identity it reads as. |
| `Materialise.Materialise` | src/cache_delay_eval/materialize.py:11-51 | The header checks refuse in order; otherwise it succeeds exactly if all recorded hashes are those of the sessions' streams, names the first request of which they are not, and each prompt writes its stream cut to its length. |
| `Materialise.PrefixIdentity` | src/cache_delay_eval/materialize.py:38-47 | Two prompts agree on their first k full blocks of tokens exactly if their first k recorded identities agree. |
| `Materialise.SharedPrefix` | src/cache_delay_eval/session_gen.py:149-165 | Two sessions of one group agree on the tokens of the shared prefix. |
| `LiveRouter.Router.Finish` | src/cache_delay_eval/routing.py:322-325 | The end of a request, in success or failure and with or without a first token, keeps both counters of every instance equal to what the coroutines say. |
| `LiveRouter.Replay` | src/cache_delay_eval/routing.py:293-330 | Under every interleaving of dispatches, first tokens and ends the counters agree with the coroutines. |
| `LiveRouter.DrainedZero` | src/cache_delay_eval/routing.py:322-325 | When every coroutine is over both counters are zero on every instance. |
| `LiveRouter.RunIsShort` | src/cache_delay_eval/routing.py:293-330 | A run has at most three events for each request dispatched. |

## Left out

- Simulate.Replay: does not compute the router's answers, because the proofs hold for any; `choose`, `SMetric`, `pin` and the contents of `RouterIndex` in its four modes (`routing_sim.py` 248-293, 358-424) are parameters, and only the in-flight multiset is kept.
- Simulate.Replay: takes a trace sorted by arrival, as `load_trace` gives it, and pops the least entry of a set where `heapq` keeps a heap.
- Simulate.Replay: does not model `qcost`, `stuck`, `predicted_hit` and `summarize`, because they only feed reports.
- Hotspot.HotspotDetector.Allowed: compares the two quotients of Equation 2 exactly where the source divides floats, and times are integers; the detector is not wired into `Simulate.Replay`, which takes any placement.
- ScheduleLoops.Schedule: leaves the step's cost out; `Cost.step` is an arbitrary function of the batch.
- EngineObject.Engine.Schedule: moves an admitted request between the queues before its `_grow`, where the source does so just after it; nothing in between reads the queues.
- ToyStepper.Transition: keeps a block's references as a set where the source keeps a sorted tuple, and leaves the evidence record out.
- ToySearch.Solve: returns the search object; `certificate`, `summarize` and the standard instances are not modelled, and the instance may have any number of requests where the source allows eight.
- EvictionSearch.Solve: leaves out the report's ratios and the event log, and the instance may have any number of requests where the source allows eight.
- EvictionRun.Replayer.Run: models a batch signature by the batch itself, so the cost table is a map from batches.
- PrefixRecency.PrefixRecency: uses reals for `Decimal`, and windows themselves as keys where the source uses their labels.
- Contexts.AddContextWitnesses: uses reals for the reuse fraction and the ages, and a list of variants for the two nested dictionaries.
- Lineage.AttachLineage: leaves the audit counts out.
- Overlap.NonoverlapRepresentatives: takes the overlap pairs as given; `overlap_pairs` and its message hashes are not modelled.
- SerialLru.SerialLru: leaves out the means and correlations computed from the rates.
- Materialise.Materialise: leaves out the parsing of session ids and the new header; token ids are natural numbers, so the test for invalid ones is not modelled.
- LiveRouter.Replay: does not model `InstanceView.apply`, `hit_blocks`, the snapshots and the HTTP stream.
- `prefix_metrics` and `add_context_flags` of `analyze_qwen_trace.py`: the neighbour argument and the ordered dictionary of `PrefixIndex` and `Contexts` again, without windows and with time stamps for witnesses.
- `generate_requests`, `load_trace`, `synth_burst`, the fetch, plot and report scripts and the frozen copies under `results/`: input and output, random numbers and formatting.
