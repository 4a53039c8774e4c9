# Verification model of reinfer

reinfer serves language models on CUDA devices. This Dafny project models its serving core and proves what that core is built to guarantee.

The centre is the continuous-batching scheduler loop (`bin/reinfer/src/sched_loop.rs`). A request's key/value cells live either in the engine's own pool, when it is the only one decoding (the singleton), or in its segment of a shared, reference-counted page pool. The loop stages, commits, adopts, flushes and drops them, and copies prefixes in and out of a cache. The model keeps real cell contents: a network is two arbitrary functions per layer, so every statement about contents holds of every decoder-only network.

| modules | subject |
|---|---|
| `Transformer`, `PagedKv`, `EngineKv` | causal network, device pages, copies, step, prefill and batch |
| `Requests`, `Pipeline` | request machine, stop matching, the serial reference run |
| `SegmentPool`, `EqualWindows`, `ExecutorKv` | page pool, first fit, the executor's placement operations |
| `SchedState`, `ExecSteps`, `SchedSteps` | the loop as a transition system over values |
| `SchedRelease`, `SchedPrefill`, `SchedDecode`, `SchedConfirm`, `SchedRuns` | its global invariant, step by step and over runs |
| `SchedTheorems` | what the invariant means outside |
| `SchedLoop` | the loop as an object, each method proved against its step |
| `Selection`, `Priorities`, `Grants` | batch selection, who comes first, and what a step may prefill |
| `StepBudget`, `Admission`, `QueueOrder` | the token budget over runs, the served configuration end to end, the waiting queue over runs |
| `CacheRefill`, `Completion` | what feeds the prefix cache, one release at a time and over runs |
| `Seats`, `Liveness` | segments for admitted requests, and progress, over runs of the server |
| `Estimates`, `Capacity`, `Starvation`, `Unfinished` | the estimate gates, the budget's unit, and the end of the budget over runs |
| `Arith`, `Matrix`, `CachedForward`, `CpuSpec`, `CpuOps`, `CpuModel` | the CPU back end over the reals |
| `CpuLaws`, `CpuRope`, `CpuBlocks` | laws of its operations: what is linear in what, relative positions, what a layer passes on |
| `Launches`, `EagerStep`, `GraphCells`, `GraphDecl` | a decode step's launches call by call, and the graph declarations written beside them |
| `BatchTables`, `GraphBuckets`, `Fused`, `Layout` | host-side caches, tile tables and weight layouts of the CUDA engine |
| `Glob`, `Download` | the glob matcher and the download work queue |

Loops and objects of the source are methods and classes here, proved against functions; the lemmas are about those functions. `dafny verify dfyconfig.toml` checks everything.

## Where the code and its comments differ

The model follows the code.

- `kv_usage_tokens` sums the device cursors of every request ever accepted, and ended requests are neither removed nor zeroed, so the step budget is not the free capacity its comment describes (`StepBudget.BudgetRightIff`). Completing jobs normally can therefore leave a server with a budget of 0 and an empty pool, and it serves nobody from then on (`Starvation.RunsDry`, `Starvation.DryForever`); a little before that, jobs that end only at their limit no longer complete (`Unfinished.NeverCompletes`).
- `pool_tokens` counts the tokens of pages of one layer, although a token takes a cell in every layer, so the budget's unit is too large by the number of layers (`Capacity.BudgetFitsIff`).
- `check_admission` calls its totals check dominated by the peak gate; it is the other way round when busy, and neither implies the other otherwise (`Estimates.AdmittedIff`, `Estimates.TotalsDecide`, `Estimates.PeakDecides`).
- The one-kernel-per-layer declaration takes the token's cell from the last layer's node although its comment and refresh list mean the first layer's, so with several layers the cell a step writes is not one the list names (`GraphDecl.StepLayerFused`). It also matches the two head norms separately, the step's own calls as a pair (`GraphDecl.OneKernelFilled`).
- A declaration always holds the flash attention kernel; when its shared memory does not fit, the split step falls back to the naive kernel and the fused one refuses (`GraphDecl.StepSplit`, `GraphDecl.StepFused`).
- Adopting a chunk that is not the first copies the earlier chunks over it and leaves the last positions unwritten (`SchedTheorems.AdoptRightIff`). The served configuration never does it while it has room.
- `terminal`'s comment says the singleton is dropped on the paths that do not refill; the code does not, so a stale singleton exists and is flushed later, harmlessly (`SchedTheorems.SingletonSafety`).
- Victims are said to spare resumed requests, but `start_prefill` clears the flag, so no decoding request ever carries it (`Admission.DecodingView`).
- The serial pipeline does not drop empty stop patterns, and on a stop it shortens the reported count by the whole pattern; the scheduler does neither (`Requests.EmptyPatternsDiffer`, `Pipeline.GenerateStream`).
- `generate` of the CPU crate feeds the last prompt token a second time, at the next position, unlike the pipeline's re-run (`CpuModel.CpuModel.NextToken`), and its limit never ends it (`CpuModel.CpuModel.Generate`). Past the context length its attention window keeps the oldest positions, not the newest (`CachedForward.PastLimit`).
- `fused.rs` describes the language head's segment as shared; the code gives it its own, and the buffer then fits only a single slab (`Fused.PartialsFitIff`). The gate's per-slab loop never rejects anything, and the kernel header describes an older gate.
- Steps longer than the last graph bucket are said to run eagerly; they share the last bucket (`GraphBuckets.IndexIsSmallest`).
- The glob matcher compares a star of the pattern with a star of the name before treating it as a wildcard (`Glob.DecidesIff`).

## Model

| member | source | states |
|---|---|---|
| `Admission.ServedIsolation` | bin/reinfer/src/sched_loop.rs:756-940 | For every run of commands and scheduling steps in the served configuration (chunk limit at least the context length), whatever the admission gates, the prefix cache and the clients answer: as long as the tokens of ended requests leave room for a full load, nobody has been preempted, chunked or restarted, every client's frames are a prefix of the stream of its job run alone, and all of it once it is done |
| `Liveness.AdmittedEnds` | bin/reinfer/src/sched_loop.rs:564-1029 | With that room and the prefix cache off, in every run: after the step in which the gate lets a request in and m more steps, with any commands between, it has ended or has exactly m + 1 tokens and still decodes; after as many steps as its token limit it was aborted, or its client has the whole stream of its job run alone |
| `Liveness.GateFeeds` | bin/reinfer/src/sched_loop.rs:757-1029 | A request the gate lets in has its first token, or has ended, at the end of that very step |
| `Liveness.KeepsServing` | bin/reinfer/src/sched_loop.rs:819-1029 | While there is room a decoding request keeps its place and gets one token from every scheduling step until it ends |
| `Liveness.DecodeMoves` | bin/reinfer/src/sched_loop.rs:943-1029 | In every reachable state, room or not, a decode step gives every decoding request exactly one token or ends it |
| `Liveness.NeverStuck` | bin/reinfer/src/sched_loop.rs:691-695 | From every reachable state, whatever the gates grant, the cache answers and the clients do, there is a scheduling step the server can take, with first-fit answers |
| `Liveness.EndedIsTold` | bin/reinfer/src/sched_loop.rs:1033-1064 | In every reachable state a request that ended without an abort has told its client that the stream is done |
| `Seats.EverySliceStarts` | bin/reinfer/src/sched_loop.rs:832-870 | With the prefix cache off, no step of any run of the server puts a slice off for want of a segment: each selected slice is in its request's segment up to the last multiple of 32 inside it, or to the end of its prompt if it reaches that |
| `Seats.ServesSeated` | bin/reinfer/src/sched_loop.rs:756-870 | In every state of such a run segments sit on the grid of windows, and the gate has counted every request that holds one |
| `Seats.SeatFree` | crates/memory/src/segment.rs:258-290 | In a loop state with fewer segments than windows below the anchor, a window is free, so first fit finds one |
| `Admission.ServerStarts` | bin/reinfer/src/serve.rs:757-795 | Such runs exist: with a context of two positions, without which no job is accepted, a fresh server that has accepted one request has room |
| `Admission.RoomAtFirst` | bin/reinfer/src/sched_loop.rs:279-293 | A server that has ended nothing has that room, for every pool size and request cap, if a window has a cell more than the context |
| `Admission.TwoLayersSuffice` | bin/reinfer/src/sched_loop.rs:279-293 | Which every model of two layers or more has |
| `Admission.SelectsWhole` | bin/reinfer/src/sched_loop.rs:795-817 | With room, the selection of a step preempts nobody and every slice is a whole prompt, because admitted and decoding requests together never exceed the request cap |
| `Admission.BudgetCovers` | bin/reinfer/src/sched_loop.rs:803-806 | With room, the step budget covers one token for each decoding request and the prompts of all eligible ones |
| `Admission.AdmitIs` | bin/reinfer/src/sched_loop.rs:757-801 | The gate lets distinct waiting requests through and never grows the working set beyond the request cap |
| `Admission.AdmitQueue` | bin/reinfer/src/sched_loop.rs:757-801 | The gate asks in queue order: a request is let in exactly when it is granted and the working set, with those let in before it and itself, is within the cap; who is let in keeps the queue's order |
| `Admission.AdmitCapIs` | bin/reinfer/src/sched_loop.rs:291-293 | The request cap is as many windows as fit beside the anchor, or the user's limit if that is smaller |
| `Admission.SelectedOk` | bin/reinfer/src/sched_loop.rs:795-817 | Whatever the selector answers, the loop can carry out: victims are distinct decoding requests, slices belong to distinct waiting requests, start at their cursors and end inside their prompts |
| `Admission.ServesCalm` | bin/reinfer/src/sched_loop.rs:564-589 | Room at the end means room all along, and every state of the run is fresh and reachable |
| `Admission.ScheduleStep` | bin/reinfer/src/sched_loop.rs:691-695 | The gate, the selector and the running loop together perform one step of the served system, and keep the loop's state reachable |
| `StepBudget.BudgetRightIff` | bin/reinfer/src/sched_loop.rs:713-715 | In the loop's own unit, the step budget equals the capacity that live requests leave free exactly while no ended request has tokens on the count, or nothing is free anyway; it is never larger |
| `Capacity.BudgetFitsIff` | bin/reinfer/src/sched_loop.rs:285-287 | In tokens the pages can really take, a cell in every layer for each: the budget asks for no more than is free exactly when it is 0 or the ended requests on the count make up for the surplus of the unit |
| `Capacity.LiveFits` | bin/reinfer/src/sched_loop.rs:285-287 | Although the unit is too large, what live requests have on the device fits the real cells in every reachable state, because their windows do |
| `Capacity.OneLayerFits` | bin/reinfer/src/sched_loop.rs:285-287 | With one layer the units agree and the budget always fits |
| `StepBudget.EndRetires` | bin/reinfer/src/sched_loop.rs:1033-1064 | Whatever ends a request, all the tokens it has on the device stay on the count |
| `StepBudget.RetiredGrows` | bin/reinfer/src/sched_loop.rs:713-715 | The share of ended requests never goes down, over any run |
| `StepBudget.Starves` | bin/reinfer/src/sched_loop.rs:803-817 | Once that share reaches the pool's size, every later step has budget 0: it prefills nothing and preempts everything that decodes, whatever is really free |
| `Starvation.RunsDry` | bin/reinfer/src/sched_loop.rs:713-715 | That share is reached: for every pool of two windows with a context of two positions, every end token, request cap and chunk limit of at least 1, there is a run of the server in which all jobs pass the serving layer's checks, complete normally and tell their clients so, and which ends with nothing live or owed, the whole pool free, and a budget of 0 |
| `Starvation.NothingFits` | bin/reinfer/src/serve.rs:757-795 | The context of two positions is needed: with one, no reachable state has ever had a request and the budget is the whole pool |
| `Starvation.GateIsPool` | bin/reinfer/src/sched_loop.rs:743-753 | The estimate gates measure against the pool beside the anchor, the same as the step budget |
| `Starvation.LonePasses` | crates/scheduler/src/admission.rs:211-248 | The estimate gates let the jobs of that run through, busy or not and whatever the average output length |
| `Starvation.DryForever` | bin/reinfer/src/sched_loop.rs:803-1029 | From such a state on no continuation of any run gives any client a token: earlier ones keep what they have, jobs submitted later get nothing |
| `Starvation.LoneServed` | bin/reinfer/src/sched_loop.rs:757-1064 | While a token of budget is left, a lone accepted job that stops at its first token is admitted, prefilled, decoded and completed in one step, and its tokens join the ended ones |
| `StepBudget.BudgetCanLeak` | bin/reinfer/src/sched_loop.rs:713-715 | For every pool of two windows with a context of two positions there is a run, with an accepted job, after which nothing is live or owed and the budget is smaller than the pool |
| `StepBudget.SubmittedDecodes` | bin/reinfer/src/sched_loop.rs:832-940 | Every such pool has a run with an accepted request decoding after a whole-prompt prefill |
| `Unfinished.NeverCompletes` | bin/reinfer/src/sched_loop.rs:803-1029 | Before the budget is gone: a job without stop patterns and end token, not done when ended requests leave no more than its prompt and limit, never completes in any continuation of any run, whatever else is submitted or aborted |
| `Unfinished.LastTwo` | bin/reinfer/src/sched_loop.rs:803-1029 | With two tokens left that is every live job that only its limit can end |
| `Unfinished.LastIsVictim` | bin/reinfer/src/sched_loop.rs:803-817 | The reason: at the start of its last step the tokens it has on the device leave no budget, so the step preempts it |
| `Estimates.PeakIsFootprint` | crates/scheduler/src/admission.rs:134-148 | The peak formula is the true peak: if everybody receives tokens in step and leaves after its estimate, no moment holds more tokens than the peak, and some moment holds that many |
| `Estimates.PeakShrinks` | crates/scheduler/src/admission.rs:134-148 | Whoever leaves, the peak of the others is not larger |
| `Estimates.EstimateIs` | crates/scheduler/src/admission.rs:72-86 | The estimate: what is held at first, the limit when busy and otherwise eleven tenths of the output or the average but never past the limit, 16 tokens of slack, and the longest wait for every chunk to come; being busy never lowers it |
| `Estimates.PeakTokens` | crates/scheduler/src/admission.rs:138-148 | The loop over the sorted estimates computes that peak |
| `Estimates.AdmittedIff` | crates/scheduler/src/admission.rs:211-248 | What the gates come to: when busy the two totals together decide and the peak never denies anything; otherwise the peak decides together with the total of what is to come |
| `Estimates.DeniedBy` | crates/scheduler/src/admission.rs:211-248 | Too many requests is named first, the chunk sum only when nothing else denies |
| `Estimates.TotalsDecide` | crates/scheduler/src/admission.rs:224-241 | Two requests can pass the peak and be denied by the totals, busy or not |
| `Estimates.PeakDecides` | crates/scheduler/src/admission.rs:224-241 | And when not busy one request can fit the totals and be denied by the peak |
| `StepBudget.DecodeFades` | bin/reinfer/src/sched_loop.rs:943-1029 | A decode step adds nobody to a queue, restarts nobody, and leaves every request that does not decode as it was |
| `StepBudget.AssignJoins` | bin/reinfer/src/sched_loop.rs:831-940 | A prefill assignment moves one live request at most; one whose slice is the whole prompt decodes afterwards |
| `Selection.SelectBatch` | crates/scheduler/src/batch.rs:71-105 | The selector's loop computes the selection that the next rows pin down: how many keep their place, who yields to whom, who is fed first and with how much, who is left over |
| `Selection.WholeIff` | crates/scheduler/src/batch.rs:71-105 | Nobody is preempted and nobody's slice is cut by the budget, exactly when the budget covers a token per decoding request and all wishes |
| `Selection.BudgetKept` | crates/scheduler/src/batch.rs:79-102 | A step dispatches exactly the smaller of its budget and what everybody wants |
| `Selection.DecodeSplit` | crates/scheduler/src/batch.rs:79-92 | Every decoding request keeps its place or is a victim, each once; as many keep it as the budget above the floor has tokens for, and there are victims exactly when that is not all |
| `Selection.PrefillIs` | crates/scheduler/src/batch.rs:93-102 | Every slice belongs to one waiting request, starts at its cursor and is not longer than its limit; no request gets two |
| `Selection.NothingRuns` | crates/scheduler/src/batch.rs:78-92 | Without a budget nothing is prefilled and every decoding request is preempted |
| `Selection.SortOrdered` | crates/scheduler/src/policy.rs:30-63 | Sorting by a rank leaves a list ordered by it; what the two ranks mean is stated without them by `Priorities` |
| `Priorities.VictimsYield` | crates/scheduler/src/policy.rs:57-63 | No request is preempted while another keeps its place that it should outlast: a resumed victim means that who stays is resumed too, and among equals the victim arrived later |
| `Priorities.VictimOrder` | crates/scheduler/src/policy.rs:57-63 | The victims themselves are listed in that order, so the last of them comes first in the queue |
| `Priorities.AheadIsFed` | crates/scheduler/src/batch.rs:93-103 | When a request gets a slice, every request ahead of it, resumed when it is not, or of its class and older, has all it can use: the rest of its prompt up to its chunk limit |
| `Priorities.KeptHasNone` | crates/scheduler/src/batch.rs:93-103 | Exactly the requests without a slice are kept waiting |
| `Priorities.NewestGoFirst` | bin/reinfer/src/sched_loop.rs:803-831 | In every state with the invariant, whoever keeps its place in a step was submitted before every victim of that step |
| `Priorities.OldestFirst` | bin/reinfer/src/sched_loop.rs:795-817 | And when a step gives somebody a slice, a preempted request, or one of the same class submitted earlier, has a slice to the end of its prompt or of the full chunk length |
| `Priorities.BatchAscends` | bin/reinfer/src/sched_loop.rs:943-960 | A decode step runs every decoding request once, in ascending order of the ids |
| `Grants.AssignGrant` | bin/reinfer/src/sched_loop.rs:832-872 | A slice that is not put off dispatches exactly the tokens up to the last multiple of 32 inside it, or to the end of the prompt, never more than it was granted; one that is put off dispatches none |
| `Grants.StepWithinBudget` | bin/reinfer/src/sched_loop.rs:803-940 | In every scheduling step, the tokens prefilled and one for each request that keeps its place are within the step budget |
| `QueueOrder.StepQueue` | bin/reinfer/src/sched_loop.rs:630-940 | What a step does to the waiting queue: a new request joins at the back, a preempted one at the front, an aborted one and one whose prompt is complete leave, and nobody else moves |
| `QueueOrder.RunInOrder` | bin/reinfer/src/sched_loop.rs:564-589 | In every state of every run, requests that were never started wait in the order they were submitted, and none of them is ahead of a preempted one |
| `Completion.CompletionFeeds` | bin/reinfer/src/sched_loop.rs:1033-1115 | What a completion leaves behind: with the cache on, a prompt of at least two full blocks of 32 tokens, no key that covers them and no refusal, the cache maps the block-aligned prefix to where the segment began, keeps all old entries but the evicted ones where they were, and of the window exactly the pages of the prefix keep one reference; in every other case, a token that does not end the request included, the cache is as it was, and a finished request's whole window is free |
| `Completion.OnlyDecodesFeed` | bin/reinfer/src/sched_loop.rs:564-695 | Submitting, aborting, preempting and prefilling leave the cache as it is |
| `Completion.RunSourced` | bin/reinfer/src/sched_loop.rs:1082-1115 | In every state of every run whatever is cached is the block-aligned prefix of a prompt whose request completed |
| `CacheRefill.EvictRemoves` | bin/reinfer/src/sched_loop.rs:1100-1106 | Eviction takes exactly the named entries out |
| `CacheRefill.HitReads` | bin/reinfer/src/sched_loop.rs:886-911 | A hit for a prompt prefilled at once takes the prefix's cells from the cached run, whatever they hold; a hit for part of a prompt is not used |
| `SchedTheorems.Isolation` | bin/reinfer/src/sched_loop.rs:943-1029 | In every reachable state of the loop under arbitrary choices, a request that was not restarted has received a prefix of the stream of its job run alone, and all of it once done, unless some prompt was prefilled in several chunks |
| `SchedTheorems.SchedulesAgree` | bin/reinfer/src/sched_loop.rs:943-1029 | Two runs never show the same job different tokens |
| `SchedTheorems.KvCoherent` | bin/reinfer/src/sched_loop.rs:1307-1410 | A decoding request's cells are those of a full forward over its own tokens, in the engine pool if it is the singleton and in every layer run of its segment otherwise; only the newest may be pending |
| `SchedTheorems.PrefixCacheAgrees` | bin/reinfer/src/sched_loop.rs:1431-1485 | A cached run holds the KV of its key in all layers, and a hit leaves the engine pool as a prefill of the whole prompt does |
| `SchedTheorems.SingletonSafety` | bin/reinfer/src/sched_loop.rs:1055-1059 | The singleton is the only decoding request, or it is stale: then nothing decodes and the pages it would be flushed into have no holder |
| `SchedTheorems.NobodyElseIsSingleton` | bin/reinfer/src/sched_loop.rs:1457-1485 | Lone decode, which overwrites the engine pool without flushing, and the refill, which takes the singleton before asking whose it is, cannot lose another live request's KV |
| `SchedTheorems.FlushLosesNothing` | bin/reinfer/src/sched_loop.rs:1307-1312 | Flushing, stale or not, leaves every decoding request and every cached run readable in the shared pool |
| `SchedTheorems.RefcountConservation` | bin/reinfer/src/sched_loop.rs:1457-1494 | In every reachable state a page's reference count is the number of its holders, segments, cached runs and the anchor, and is at most one |
| `SchedTheorems.TokensConserved` | bin/reinfer/src/sched_loop.rs:1033-1064 | Dispatched minus returned is the sum of the unreleased requests' device cursors, so nothing is owed when nothing is live |
| `SchedTheorems.SegmentsConserved` | bin/reinfer/src/sched_loop.rs:819-870 | Exactly the chunked and decoding requests have a segment, every segment taken is given back exactly once, and the queues are disjoint and without duplicates |
| `SchedTheorems.ReleasesNeverGrow` | bin/reinfer/src/sched_loop.rs:1082-1115 | Abort and preemption never touch the cache, and a release under a covered key takes exactly one reference from each page of its window and adds none |
| `SchedTheorems.CopiesApart` | bin/reinfer/src/sched_loop.rs:1327-1339 | Pages copied for a decoding request stay inside that request's own run of that layer, below the anchor; copies for different requests or layers never overlap |
| `SchedTheorems.PoolPagesFixed` | crates/cuda/src/engine.rs:5944 | With the anchor in the batch, the pool size the kernels derive the V region from is always the real one |
| `SchedTheorems.AdoptRightIff` | bin/reinfer/src/sched_loop.rs:1500-1515 | Staging a last chunk and adopting it leaves the prompt's KV in the engine pool, for every model and state, exactly when the chunk is the first one |
| `SchedRuns.RunKeeps` | bin/reinfer/src/sched_loop.rs:564-589 | The global invariant, bookkeeping, ownership, ledger, KV content and isolation, holds in every state of every run |
| `SchedRuns.RunExtends` | bin/reinfer/src/sched_loop.rs:564-589 | The invariant never cuts a run short: whatever is possible next extends it |
| `SchedRuns.DecodeKeeps` | bin/reinfer/src/sched_loop.rs:943-1029 | A decode step with arbitrary faults, client hang-ups and evictions keeps the invariant |
| `SchedRuns.ConfirmKeeps` | bin/reinfer/src/sched_loop.rs:970-1028 | Sampling and confirming one request keeps the invariant and leaves the rest of the batch as it was |
| `SchedRelease.SubmitKeeps` | bin/reinfer/src/sched_loop.rs:630-686 | Submitting keeps the invariant |
| `SchedRelease.AbortKeeps` | bin/reinfer/src/sched_loop.rs:1119-1141 | Aborting at any moment keeps the invariant |
| `SchedRelease.PreemptKeeps` | bin/reinfer/src/sched_loop.rs:819-831 | Preempting a decoding request keeps the invariant |
| `SchedPrefill.AssignKeeps` | bin/reinfer/src/sched_loop.rs:832-940 | Prefilling one selected slice, from the cache or not, adopted or committed, keeps the invariant |
| `SchedDecode.RanKeeps` | bin/reinfer/src/sched_loop.rs:1523-1573 | Running the batch keeps the invariant and completes every pending cell |
| `SchedDecode.RanHolds` | bin/reinfer/src/sched_loop.rs:1523-1573 | After the batch every decoding request's window is complete and each logits row is that of the uncached forward over its own tokens, alone or together |
| `SchedConfirm.RefillOwned` | bin/reinfer/src/sched_loop.rs:1457-1485 | Referencing the prefix runs and releasing the window hands the prefix pages to the cache and frees the others |
| `SchedConfirm.EvictKeeps` | bin/reinfer/src/sched_loop.rs:1082-1115 | Evicting entries frees exactly their runs |
| `SchedConfirm.StepDecides` | crates/scheduler/src/req.rs:294-313 | Confirming a token emits it exactly when the serial run would go on with it |
| `SchedConfirm.GrownKeeps` | bin/reinfer/src/sched_loop.rs:993-1028 | A confirmed token keeps the invariant, sampler chain and KV history included |
| `SchedConfirm.GoneKeeps` | bin/reinfer/src/sched_loop.rs:1033-1064 | A finished request leaves, with its prefix cached or not, and the invariant holds |
| `SchedLoop.SchedLoop.constructor` | bin/reinfer/src/sched_loop.rs:534-560 | A new loop over any device memory is in an initial state |
| `SchedLoop.SchedLoop.HandleSubmit` | bin/reinfer/src/sched_loop.rs:630-686 | Performs exactly the submit step and stays reachable |
| `SchedLoop.SchedLoop.HandleAbort` | bin/reinfer/src/sched_loop.rs:1119-1141 | Performs exactly the abort step, idempotently, and stays reachable |
| `SchedLoop.SchedLoop.Iterate` | bin/reinfer/src/sched_loop.rs:691-695 | Preempts the victims, prefills the slices in order, each with the segment the pool hands out, then performs exactly the decode step; the state stays reachable |
| `SchedLoop.SchedLoop.AdmitSchedule` | bin/reinfer/src/sched_loop.rs:819-940 | The loops over victims and slices perform those events in order, each slice up to its aligned end and with the segment the pool hands out |
| `SchedLoop.SchedLoop.DecodeAll` | bin/reinfer/src/sched_loop.rs:943-1029 | The decode loop performs exactly the decode step |
| `SchedLoop.SchedLoop.RefillPrefixRelease` | bin/reinfer/src/sched_loop.rs:1082-1115 | What is left behind is stated outright: the new entry with its referenced pages, the evicted entries gone, the rest of the window free, or the cache as it was and the whole window free |
| `SchedLoop.SchedLoop.Finish` | bin/reinfer/src/sched_loop.rs:1033-1064 | Performs exactly the terminal step |
| `SchedLoop.SchedLoop.Delivers` | bin/reinfer/src/sched_loop.rs:943-1029 | Isolation for the running object: what a client has received from it |
| `ExecutorKv.Executor.FlushSingleton` | bin/reinfer/src/sched_loop.rs:1307-1312 | Moves the singleton's cells into its segment, layer by layer |
| `ExecutorKv.Executor.CopyEngineToPool` | bin/reinfer/src/sched_loop.rs:1316-1362 | Copies the pages of every layer run into the segment and nothing else |
| `ExecutorKv.Executor.CopyPoolToEngine` | bin/reinfer/src/sched_loop.rs:1365-1410 | The reverse copy |
| `ExecutorKv.Executor.PrefillPrefixHit` | bin/reinfer/src/sched_loop.rs:1431-1455 | Copies the cached run, then steps the rest of the prompt |
| `ExecutorKv.Executor.RefillPrefix` | bin/reinfer/src/sched_loop.rs:1457-1485 | Takes the singleton, flushes it only if it is the request's own, references the prefix runs, releases the window |
| `ExecutorKv.Executor.AdoptSingleton` | bin/reinfer/src/sched_loop.rs:1500-1515 | Makes the staged chunk the singleton, copying earlier chunks over it |
| `ExecutorKv.Executor.CommitStage` | bin/reinfer/src/sched_loop.rs:1496-1498 | Copies the staged chunk into the segment |
| `ExecutorKv.Executor.UnrefPrefix` | bin/reinfer/src/sched_loop.rs:1487-1494 | Releases an evicted run in every layer |
| `ExecutorKv.Executor.DecodeBatch` | bin/reinfer/src/sched_loop.rs:1523-1573 | One request in the engine pool, more on the shared pool with the anchor; rows in batch order |
| `ExecutorKv.Executor.constructor` | bin/reinfer/src/sched_loop.rs:1265-1284 | The pool starts with exactly the top window anchored |
| `PagedKv.Dev.StepHolds` | crates/cuda/src/engine.rs:3739-3746 | Incremental decode equals recomputation: a step over a window holding the earlier positions completes it and returns the logits of the uncached forward, whatever the last cell held, so a re-run changes nothing |
| `PagedKv.Dev.PrefillHolds` | crates/cuda/src/engine.rs:5341-5721 | A layer-by-layer prefill leaves exactly the cells of the full forward |
| `PagedKv.Dev.BatchIsSteps` | crates/cuda/src/engine.rs:5974-6059 | The layer-major batch over disjoint windows equals each request stepping alone |
| `PagedKv.Dev.BatchHolds` | crates/cuda/src/engine.rs:5853-6059 | A batch completes every coherent window and returns each request's own uncached logits |
| `PagedKv.Dev.CopyHolds` | bin/reinfer/src/sched_loop.rs:1316-1410 | Copying the covering pages of a coherent run makes the target coherent |
| `PagedKv.Dev.CopiedAt` | bin/reinfer/src/sched_loop.rs:1327-1339 | The per-layer copy loop puts each page of each run in place and changes nothing outside the target runs |
| `PagedKv.Dev.CopyElsewhere` | bin/reinfer/src/sched_loop.rs:1327-1339 | A copy into part of a window changes no page outside the window |
| `PagedKv.Dev.HoldsFrame` | bin/reinfer/src/sched_loop.rs:1316-1410 | Only the pages that the positions cover matter for coherence |
| `EngineKv.Engine.Step` | crates/cuda/src/engine.rs:3739-3746 | The step's loop over layers writes the cell, then attends, as the specification does |
| `EngineKv.Engine.PrefillBatch` | crates/cuda/src/engine.rs:5341-5721 | The prefill's loops compute the specified pages |
| `EngineKv.Engine.BatchDecodeStep` | crates/cuda/src/engine.rs:5853-6059 | One request takes the engine's own pool, unchecked; two or more run on the shared one, and one request whose filled range or position is outside the window refuses the whole batch before anything is written |
| `Transformer.HiddenCausal` | crates/cpu/src/ops.rs:147-236 | A position's residual depends on nothing to its right |
| `ExecSteps.StepTokensHolds` | bin/reinfer/src/sched_loop.rs:1431-1455 | Stepping a suffix over a copied prefix leaves the whole prompt's cells |
| `Requests.StopMatcher.PushDecides` | crates/scheduler/src/stop.rs:53-79 | The bounded window fires exactly when some pattern is a suffix of the whole stream with the new token, and keeps tracking it otherwise |
| `Requests.EventOrder` | crates/scheduler/src/req.rs:294-314 | Which event a token causes, told from the whole stream: a stop pattern it completes first, then the end token, then the limit; exactly these end the request |
| `Requests.EmptyPatternsDiffer` | crates/scheduler/src/stop.rs:44-51 | The serial and the scheduled stream of a job agree exactly when it has no empty stop pattern or the filtered stream is empty |
| `Pipeline.GenerateStream` | bin/reinfer/src/pipeline.rs:123-227 | The serial loop sends a prefix of the serial stream, and exactly that stream unless the client leaves or the job does not fit; a client that leaves gets no further frame. An end token is reported exactly when the token that was not sent is one, a stop exactly when it is not and completes a pattern, the first such, whose length is taken off the count |
| `Pipeline.NextRow` | bin/reinfer/src/pipeline.rs:183-189 | One decode step over a coherent pool, the idempotent re-run of the last prompt position included, gives the uncached row |
| `Pipeline.PrefillPrompt` | bin/reinfer/src/pipeline.rs:139-153 | Batched or token by token, the prompt's cells are those of a full forward |
| `Pipeline.FindStop` | bin/reinfer/src/pipeline.rs:206-212 | Finds the first pattern that ends the stream |
| `Pipeline.SerialIsServed` | bin/reinfer/src/pipeline.rs:171-227 | Without empty stop patterns the serial stream is the one the scheduler's clients get |
| `SegmentPool.Pool.Alloc` | crates/memory/src/segment.rs:258-290 | First fit succeeds exactly when some window of contiguous free pages exists; it takes the start of the first run of the list that has the pages and puts what is left in front; what it takes was free |
| `SegmentPool.Pool.AllocFromEnd` | crates/memory/src/segment.rs:297-322 | From the back of the list: succeeds exactly when a window is free, takes the end of the last run that has the pages, which were free, and puts what is left in front |
| `SegmentPool.Pool.Ref` | crates/memory/src/segment.rs:338-349 | One reference more on every page of a live window |
| `SegmentPool.Pool.Drop` | crates/memory/src/segment.rs:351-384 | One reference less on every page; the pages that reach zero are exactly those the free list gains, and the last of them is in the run at the front, which the next first fit tries first |
| `SegmentPool.Pool.InsertRun` | crates/memory/src/segment.rs:386-406 | Merging a run with whatever touches it keeps the list an exact cover by runs that do not touch, with the merged run in front and the others in order |
| `SegmentPool.WindowInRun` | crates/memory/src/segment.rs:258-290 | A window of covered pages lies in a single run, because no two runs touch |
| `SegmentPool.FreeCountIsCard` | crates/memory/src/segment.rs:222-245 | The runs of the free list add up to the number of pages without references |
| `EqualWindows.HistoryGridded` | bin/reinfer/src/sched_loop.rs:841-850 | After any history of equal allocations and releases, live segments sit on the grid of windows below the anchor and cover exactly the taken pages |
| `EqualWindows.NeverFragments` | bin/reinfer/src/sched_loop.rs:841-850 | A window is free exactly when fewer than the cap are live, so equal windows never fragment the pool |
| `EqualWindows.TakeWindow` | bin/reinfer/src/sched_loop.rs:1415-1417 | On the real pool, after any history of windows taken and given back: a segment is found exactly when fewer than the cap are live, and the history goes on describing the pool |
| `EqualWindows.GiveWindow` | bin/reinfer/src/sched_loop.rs:1419-1421 | Giving a live segment back never trips the pool, and the history goes on describing it |
| `EqualWindows.Anchored` | bin/reinfer/src/sched_loop.rs:1278-1284 | A new pool with the anchor taken from its end is the empty history |
| `EqualWindows.PoolHoldsWindow` | bin/reinfer/src/serve.rs:386-421 | The unit conversion succeeds exactly when the pool holds a window, and is then the budget in every layer |
| `CachedForward.AdvanceHolds` | crates/cpu/src/ops.rs:147-236 | From a cache holding the earlier positions one cached step completes it, returns the full forward's logits and touches no other position |
| `CachedForward.AdvanceAgain` | crates/cpu/src/ops.rs:147-236 | Running the last position again changes neither the cache nor the logits |
| `CachedForward.ReplayHolds` | crates/cpu/src/lib.rs:97-100 | Inside the context length, stepping a prompt token by token fills the cache as a full forward would, whatever it held, and gives its row |
| `CachedForward.PastLimit` | crates/cpu/src/ops.rs:201-217 | Past the context length a row depends only on the tokens inside it and on the newest one: the window keeps the oldest positions, and nothing between is ever attended to |
| `CpuModel.CpuModel.DecodeStep` | crates/cpu/src/ops.rs:147-236 | The decode step over the two flat arrays is the cached step, all layers and heads |
| `CpuModel.CpuModel.Prefill` | crates/cpu/src/lib.rs:97-100 | For every prompt that has slots the arrays end up as the replay leaves them, and inside the context length that is the full forward's keys, values and last row; an unknown token is an error |
| `CpuModel.CpuModel.WriteKv` | crates/cpu/src/ops.rs:192-200 | Writing head by head changes exactly one cell of the rectangle |
| `CpuModel.CpuModel.AttentionHeads` | crates/cpu/src/ops.rs:201-217 | Grouped-query attention read from the flat arrays is attention over the cells of the layer |
| `CpuModel.CpuModel.Generate` | crates/cpu/src/lib.rs:78-122 | For every prompt: a bad temperature or token is refused; otherwise each token returned is the first maximum of the replayed row of the prompt with its last token doubled and the tokens before it, and none is the end token. A positive limit never ends the loop: it ends at the end token, which is then the first maximum of its row, or fails when the slots run out |
| `CpuModel.CpuModel.NextToken` | crates/cpu/src/lib.rs:105-119 | One turn of that loop feeds the newest token, leaves the arrays as the replay of everything fed, and picks the first maximum of its row |
| `CpuModel.GreedyIsFull` | crates/cpu/src/lib.rs:105-119 | Inside the context length those rows are the full forward's |
| `CpuModel.GreedyAgree` | crates/cpu/src/lib.rs:105-119 | So there the tokens do not depend on what the arrays held before |
| `CpuModel.IdxUnique` | crates/cpu/src/model.rs:209-215 | Distinct layer, head, position and entry never share a slot of the arrays |
| `CpuModel.ArgmaxFirst` | crates/cpu/src/lib.rs:125-132 | The first of the largest entries |
| `CpuOps.AttentionQuery` | crates/cpu/src/ops.rs:109-144 | Scores, stabilised softmax and the weighted sum, zero weights skipped, compute attention |
| `CpuOps.RopeHeads` | crates/cpu/src/ops.rs:95-106 | In-place rotation rotates every head and nothing else |
| `CpuOps.FfnSwiglu` | crates/cpu/src/ops.rs:75-92 | Computes the gated feed-forward, which the four rows that follow describe |
| `CpuLaws.FfnUpAdds` | crates/cpu/src/ops.rs:75-92 | The feed-forward is additive in its `up` weights, whatever the sigmoid |
| `CpuLaws.FfnUpScales` | crates/cpu/src/ops.rs:75-92 | And scaling those weights scales its output |
| `CpuLaws.FfnZeroGate` | crates/cpu/src/ops.rs:75-92 | A gate of zeros gives zero for any `up` |
| `CpuLaws.FfnOddGate` | crates/cpu/src/ops.rs:75-92 | Where sigmoids of opposite values add up to one, turning the gate weights around leaves a difference free of sigmoids, the projected product of gate and up |
| `CpuOps.RmsNormRow` | crates/cpu/src/ops.rs:239-248 | Computes the normalised row |
| `CpuLaws.RmsNormAdds` | crates/cpu/src/ops.rs:239-248 | The norm is linear in its weights |
| `CpuLaws.RmsNormSquares` | crates/cpu/src/ops.rs:239-248 | With unit weights the squares of the normalised row, times their mean and epsilon, are the squares of the row |
| `CpuLaws.WeightsSumToOne` | crates/cpu/src/ops.rs:118-134 | The attention weights of a window whose exponentials have a positive sum add up to one |
| `CpuLaws.WeightsRatio` | crates/cpu/src/ops.rs:118-134 | They stand to each other as the exponentials of the scores, taken from the largest |
| `CpuLaws.WeightsShift` | crates/cpu/src/ops.rs:118-134 | Adding the same to all scores changes no weight |
| `CpuLaws.AttendAdds` | crates/cpu/src/ops.rs:135-144 | Attention is additive in the values |
| `CpuLaws.AttendPicks` | crates/cpu/src/ops.rs:133-144 | When all values but one are zero, attention is that value times the weight of its own position |
| `CpuLaws.AttendAverages` | crates/cpu/src/ops.rs:135-144 | Attending to copies of one value gives that value |
| `CpuLaws.ScoresAre` | crates/cpu/src/ops.rs:110-117 | A query's score against itself is its squared length, and scores add up over queries |
| `CpuRope.ScoreIsRelative` | crates/cpu/src/ops.rs:95-106 | With angles that add up, the score of a rotated query and a rotated key depends only on how far apart they are |
| `CpuRope.RotationKeepsDot` | crates/cpu/src/ops.rs:95-106 | Rotating both by one position changes no product and no length |
| `CpuRope.RotatesForward` | crates/cpu/src/ops.rs:95-106 | The direction of the rotation: the first axis of a pair goes to cosine and sine |
| `CpuRope.QueryKeyRelative` | crates/cpu/src/ops.rs:172-191 | So the score of any query head and any key head of a layer depends on the distance of their positions |
| `CpuRope.ValuesStay` | crates/cpu/src/ops.rs:172-200 | Values are the same at every position |
| `CpuBlocks.HeadReads` | crates/cpu/src/ops.rs:201-217 | Query head h reads key/value head h * kvHeads / qHeads and no other |
| `CpuBlocks.AttentionOfSum` | crates/cpu/src/ops.rs:201-217 | Over the same keys a layer's attention adds up with the values, head by head |
| `CpuBlocks.BiasAlone` | crates/cpu/src/ops.rs:160-184 | Without weights of their own, or behind an attention norm of zeros, queries, keys and values are what their biases make them |
| `CpuBlocks.KeyValueApart` | crates/cpu/src/ops.rs:160-184 | Keys do not depend on the value weights, nor values on the key weights |
| `CpuBlocks.BareBlock` | crates/cpu/src/ops.rs:147-236 | Without attention and feed-forward outputs a layer passes its input on |
| `CpuBlocks.AttentionAdds` | crates/cpu/src/ops.rs:219-222 | The attention's share of a layer is additive in its output weights around the input |
| `CpuBlocks.FeedForwardAdds` | crates/cpu/src/ops.rs:223-228 | The feed-forward's share is additive in its `up` weights around what it reads |
| `CpuBlocks.ShutFeedForward` | crates/cpu/src/ops.rs:223-228 | A feed-forward norm of zeros shuts it off |
| `CpuBlocks.LogitsAdd` | crates/cpu/src/model.rs:218-240 | The logit of a token turns on that token's row of the output matrix and adds up with it |
| `CpuBlocks.ZeroLogits` | crates/cpu/src/ops.rs:230-236 | Nothing passes a final norm of zeros |
| `CpuBlocks.EmbedReads` | crates/cpu/src/model.rs:188-200 | The embedding of a token is its row of the table |
| `Matrix.MatMul` | crates/cpu/src/ops.rs:58-72 | The skipping triple loop computes the row-major product for all sizes |
| `Glob.GlobMatch` | bin/reinfer/src/main.rs:1865-1889 | The loop terminates and computes the scan the lemmas decide |
| `Glob.Sound` | bin/reinfer/src/main.rs:1865-1889 | A true answer means the rest of the name matches the rest of the pattern, or would from a remembered star, for all names |
| `Glob.Complete` | bin/reinfer/src/main.rs:1865-1889 | One remembered star is enough: for names without a star the scan succeeds whenever anything matches |
| `Glob.DecidesIff` | bin/reinfer/src/main.rs:1865-1889 | For a given name the matcher decides the wildcard language of every pattern exactly when the name has no star in it (IEEE Std 1003.1-2017, Shell and Utilities, sections 2.13.1 and 2.13.2, without brackets, stars crossing slashes) |
| `Download.Plan.RunKeeps` | bin/reinfer/src/main.rs:1076-1137 | Under every interleaving of the workers each claimed index is in one worker's hands until its result is stored |
| `Download.Plan.AllReported` | bin/reinfer/src/main.rs:1076-1137 | When all workers have left, each index was claimed by exactly one and every slot holds its own file's outcome |
| `Download.Plan.NothingGoesBack` | bin/reinfer/src/main.rs:1413-1427 | A claim never changes hands, a stored result never changes, and no peak nor the global position goes back, retries included |
| `Download.Plan.PeakIsLargest` | bin/reinfer/src/main.rs:1413-1427 | In every run a file's peak is the largest of the reports made for it, retries included, and 0 before the first |
| `Download.Plan.PositionIsPeaks` | bin/reinfer/src/main.rs:1413-1427 | The global position is the sum of the peaks in every run, and summing them anew at each report moves it by exactly what the report adds to its own file's peak; no other step moves it |
| `Download.Progress.Update` | bin/reinfer/src/main.rs:1413-1427 | A report raises its file's peak to the maximum and moves the position by exactly that |
| `Fused.DecodeBlock` | crates/cuda/kernels/decode_fused_kernels.cu:187-209 | A block number decodes to one tile, whose block it is |
| `Fused.BlocksApart` | crates/cuda/kernels/decode_fused_kernels.cu:187-209 | No two tiles share a block |
| `Fused.ColumnsExact` | crates/cuda/kernels/decode_fused_kernels.cu:187-209 | Each column of each slab is computed by exactly one thread of exactly one block |
| `Fused.AddressesApart` | crates/cuda/src/fused.rs:296-310 | Partial sums of different columns, slabs or plans never share an address |
| `Fused.MergeGate` | crates/cuda/src/fused.rs:273-290 | The gate as evaluated accepts exactly when the slab length divides 256 and the stripes fit |
| `Fused.SlabsInStripes` | crates/cuda/src/fused.rs:275-287 | The per-slab loop of the gate is implied by the divisibility test |
| `Fused.GateIsSound` | crates/cuda/src/fused.rs:273-290 | An accepted gate means every slab reads only its own block's stripe and the stripes cover the reduction |
| `Fused.SlabsPartition` | crates/cuda/src/fused.rs:273-290 | Every index of the reduction lies in exactly one slab |
| `Fused.Plan.NslabsFill` | crates/cuda/src/gemm.rs:526-543 | Slabs are added until the blocks reach the target, 192 when the reduction is more than twice as long as the output and 96 otherwise, and no longer, as long as each has 32 terms |
| `Fused.Plan.NcolsLeast` | crates/cuda/src/gemm.rs:526-543 | The column tiles cover the columns, and one tile fewer would not |
| `Fused.PairShape` | crates/cuda/src/gemm.rs:537-543 | The split step's kernel pair divides its work as the fused plans do |
| `Fused.BuildPlans` | crates/cuda/src/fused.rs:242-480 | Each row has its own layer's operands, and its block and segment offsets are those the kernels decode, for all shapes and layer counts |
| `Fused.PartialsFitIff` | crates/cuda/src/fused.rs:296-345 | The partials buffer holds every plan exactly when the language head has one slab, which is only asserted in debug builds |
| `BatchTables.Scratch.StageStep` | crates/cuda/src/engine.rs:5974-6059 | Whatever steps came before, uploaded or skipped, the kernels read freshly built page tables and pool pointers of this step's requests |
| `BatchTables.Scratch.Ensure` | crates/cuda/src/engine.rs:5789-5842 | Growing drops the upload key, so the next step uploads |
| `BatchTables.CheckBatch` | crates/cuda/src/engine.rs:5889-5972 | Refuses mixed pools and requests outside the vocabulary or the window; computes the largest extent |
| `BatchTables.ExtentIs` | crates/cuda/src/engine.rs:5889-5972 | That extent is the end of the window that reaches furthest |
| `BatchTables.BuildPages` | crates/cuda/src/engine.rs:5974-6020 | Entry (b, layer, j) is the page of that request's segment |
| `GraphBuckets.IndexIsSmallest` | crates/cuda/src/graph.rs:234-262 | The index is that of the smallest bucket holding the step, and longer steps share the last one |
| `GraphBuckets.Buckets.Step` | crates/cuda/src/engine.rs:3808-3843 | A bound bucket replays, a failed one stays eager, any other is captured once; a failed replay unbinds and fails its bucket |
| `GraphBuckets.Buckets.TryCapture` | crates/cuda/src/engine.rs:5020-5103 | A capture ends bound or failed, and is counted as the code counts it |
| `GraphBuckets.Buckets.Counters` | crates/cuda/src/engine.rs:5020-5124 | In every reachable state no bucket is both bound and failed, each was tried once, fallbacks count failed buckets and captures count bound buckets and failed ones that had been captured |
| `GraphCells.GraphStepDecl.WriteStep` | crates/cuda/src/engine.rs:2150-2168 | Writes the step's values into the recorded cells and nothing anywhere else |
| `GraphCells.GraphStepDecl.Run` | crates/cuda/src/engine.rs:3926-3960 | After the write the launch driven by the declaration is the declared nodes with the step's values, and only cells named by the refresh list have changed |
| `GraphDecl.Build` | crates/cuda/src/engine.rs:2190-2634 | The split declaration's loop, with the node literals as written there: when every projection matches the pair and the attention fits, the program is the split step's calls with places where the step's values go; in any case each place is recorded and named by the refresh list, and nodes are plain kernels exactly when every projection matches |
| `GraphDecl.BuildFused` | crates/cuda/src/engine.rs:2654-2944 | The same for the fused declaration, whose two rotations share one cell; it always has the expected node count |
| `GraphDecl.BuildLayerFused` | crates/cuda/src/engine.rs:2959-3110 | The one-kernel-per-layer declaration records the last layer's token cell while its refresh list names the first layer's; it has the expected node count |
| `GraphDecl.StepSplit` | crates/cuda/src/engine.rs:3926-4350 | The declared split step runs exactly when every projection matches the kernel pair; its launches are then those of the split step's own calls, kernels, geometry and arguments, for every shape, token and position, exactly when the attention's shared memory fits or there is no layer |
| `GraphDecl.StepFused` | crates/cuda/src/engine.rs:3926-4706 | The declared fused step launches what the fused step's own calls launch exactly when the attention fits; otherwise those calls refuse. Only cells named by the refresh list change |
| `GraphDecl.StepLayerFused` | crates/cuda/src/engine.rs:3026-4417 | The declared one-kernel-per-layer step launches what its own calls launch exactly when there is one layer or the token is 0, and no layer has just one head norm. Of the cells that change the refresh list names all but the recorded token cell, and all of them exactly when there is one layer or that cell held the token already |
| `GraphDecl.SplitFilled` | crates/cuda/src/engine.rs:3962-4350 | The split step's calls with places, filled in with any step's values, are the calls as the launch wrappers make them for that token and position |
| `GraphDecl.FusedFilled` | crates/cuda/src/engine.rs:4467-4706 | The same for the fused step, when the attention fits |
| `GraphDecl.OneKernelFilled` | crates/cuda/src/engine.rs:4381-4417 | A declared one-kernel node is the call exactly when matching the two head norms one by one and as a pair comes to the same |
| `GraphDecl.SplitCountIff` | crates/cuda/src/engine.rs:1916-1942 | The split step has the expected node count exactly when the layers with both head norms make up for the projections the kernel pair misses |
| `GraphDecl.LoadedCountIff` | crates/cuda/src/engine.rs:1916-1942 | For weights as the loader reads them: exactly when the pair is not loaded or matches every projection |
| `EagerStep.FusedRunsIff` | crates/cuda/src/decode.rs:345-360 | The fused step's calls go through exactly when the attention's shared memory fits |
| `EagerStep.NaiveCall` | crates/cuda/src/engine.rs:4190-4246 | What that kernel is then called with, argument by argument |
| `EagerStep.NaiveInSplit` | crates/cuda/src/engine.rs:4190-4246 | When it does not fit, the split step launches the naive attention kernel, which no declaration has |
| `Layout.ToRowMajor` | crates/cuda/src/engine.rs:6523-6540 | The loop computes the transpose |
| `Layout.TransposeTwice` | crates/cuda/src/engine.rs:6523-6540 | Transposing back restores the matrix |
| `Layout.LinearLayer` | crates/cuda/src/engine.rs:6523-6540 | Multiplying by the loaded weights applies the linear layer the file stores |
| `Layout.Gemm1r` | crates/cuda/src/engine.rs:6393-6439 | The operand-swapped column-major call computes the row-major product, for all sizes |
| `Layout.JoinQkv` | crates/cuda/src/engine.rs:3292-3312 | The three slice copies per row build the column join |
| `Layout.JoinedIsThree` | crates/cuda/src/engine.rs:3292-3312 | One product with the joined weights, split by columns, is the three separate projections, for all sizes |

## Left out

- Contents after a prompt was prefilled in several chunks: only the bookkeeping, ownership and accounting are claimed then; `SchedTheorems.AdoptRightIff` says why.
- Output after a preemption of a request that had generated tokens: the code does not reset them; the `restarted` flag marks such clients, and only bookkeeping is claimed for them.
- Admission.ServedIsolation: needs room for a full load in the step budget; without it requests may be preempted or chunked, and `Starvation.DryForever` gives the end of that road.
- Liveness.AdmittedEnds: starts where the gate lets a request in; when that happens depends on the estimate gates, which are arbitrary here. With the prefix cache on, a slice can wait for a segment.
- EngineKv.Engine.BatchDecodeStep: the vocabulary is not part of its network; `BatchTables.CheckBatch` has that refusal, and the per-request pools. That segments lie inside the pool is the caller's promise, as in the code.
- Device faults: copies, steps and uploads succeed, except where a method returns an option; sampling faults and clients that hang up are included.
- The answers of the estimate gates in a run, the prefix tree's lookup and the eviction policy are arbitrary, which makes the theorems stronger; the request-count gate and batch selection are part of every step, and the gates' formulas are in `Estimates`, without the moving average.
- Longest-prefix ordering of the waiting queue: the loop always asks for arrival order.
- A submit whose sampler cannot be built leaves a request without serving state; samplers always build here, and one deterministic function of the parameters and all logits rows stands for the sampler.
- Request ids come from a bijection on arrival numbers; here a new id is any fresh number.
- A page holds a key/value pair per position; the K and V regions of a pool are one page array, and `SchedTheorems.PoolPagesFixed` covers the address of the second region.
- Floating-point rounding: the estimate's factor of 1.1 is exact, vectors are over the reals, and only their shapes and sums matter.
- Machine integers: counters, addresses and arguments are unbounded; the only narrowing the code relies on is of values checked against the context length.
- GraphDecl.StepSplit: a projection outside the kernel pair is one library call whose node stands for its place and shape only; the code launches through the declaration only when there is none.
- GraphCells.GraphStepDecl.Run: the slab scratch address is fixed at build, as the code assumes; a later batched launch may reallocate it.
- Environment switches that turn single kernels off, and launches that fail for other reasons than shared memory: the default configuration is modelled.
- Capture, read-back and refresh inside the driver: the bucket machine takes their outcomes as inputs.
- Fused.BuildPlans: gate and up have one shape, as the code asserts in debug builds; partial sums are offsets into the buffer.
- Download bodies, retries and the progress display's drawing: a file's outcome and its byte reports are inputs of the interleaving.
- CpuModel.CpuModel.Generate: the write past the last slot fails only in the last head of the last layer; what the arrays hold after that failure is not stated.
- HTTP, command line, tokenizer, chat templates, profilers, the Ascend back end and every kernel body.
