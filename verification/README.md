# SwarmKV: the speculative prefill/fork protocol

SwarmKV prefills a shared document once and lets branch workers fork its KV cache, either at a
watermark while the prefill is still running or after it has finished. This project models that
protocol and proves what it keeps over every run and every interleaving.

The model has three layers.

* **Graph.** `Orchestrator.dfy` builds the two adjacency maps and runs the three-colour search;
  `DependencyGraph.dfy` defines walks and cycles without reference to the search.
* **Workers.** `PipelineState.dfy`, `PrefillNode.dfy`, `AnalyticalNode.dfy`, `Baseline.dfy`,
  `HostMemory.dfy`, `ContextBudget.dfy` and `Llama.dfy` are the imperative code: classes whose
  methods update fields and buffers in place, loop by loop and throw by throw as in
  `src/core/pipeline_state.cpp`, `src/nodes/prefill_node.cpp`, `src/nodes/analytical_node.cpp`,
  `benchmarks/swarmkv_benchmark.cpp`, `src/memory/memory_pool.cpp`, `src/core/kv_handoff.cpp` and
  `include/swarmkv/context_budget.h`. Their contracts speak of the functions in `PrefixSpec.dfy`
  (the monitor's critical sections) and `ForkSpec.dfy` (what a branch forks from). An `Engine`
  object remembers whether any engine call failed, how many contexts are open, and every batch
  that was decoded, so contracts also say when a worker must succeed, which throws leave a context
  behind, and that the batches of a whole prefill are the document in order.
* **Protocol.** `Protocol.dfy` is `execute_pipeline` as a transition system with one program
  counter per worker, the monitor, the global llama lock, and the join; every throw names its
  site. `ProtocolInvariant.dfy` proves its invariant, `Liveness.dfy` termination and the exact
  conditions for deadlock-freedom and for the join, `Safety.dfy` what holds in every reachable
  state and over whole runs, `Outcomes.dfy` exactly which branches succeed when the engine does
  not fail, and runs that show what its failures do. `Refinement.dfy` shows that the imperative
  sections of both workers, throwing or not, are runs of the transition system.
  `AuditPipeline.dfy` applies the theorems to the shipped example graph.

Engine calls, tokenization and allocation may fail at any point; such failures are arbitrary
choices of the model. This includes a KV export that reports 0 bytes, which the code does not
treat as an error. The document and the prompts are given as token sequences. A KV cache is a
sequence of (token, position) cells on sequence lane 0, and its serialised form is a concrete
byte encoding.

A gate is a registered milestone that is also a commit point, so that the prefiller exports and
pauses there. `Base(snapshots, w)` is the last gate up to w whose export was empty, or 0.

## What the proofs found

* Forking equals recomputing if and only if no gate up to the fork length was exported empty. If
  the engine reports 0 bytes, the code freezes an empty snapshot under the full length; the
  prefiller's restore then returns silently into an empty context, and a branch skips its own
  restore, decodes its prompt behind nothing and succeeds. `EmptyExportForksNothing` is such a run.
  The same condition decides whether the prefiller's context is the document prefix, whether a
  snapshot is the document's export, and whether the canonical buffer encodes its claimed length.
* A pipeline whose prefill does not fail keeps every promise, and is never stuck before that, if
  and only if it is `WellGated`: the waits must be acyclic and name registered nodes, no branch may
  wait for more tokens than the document has, and a branch at which the prefiller pauses must not
  wait, through any chain of branches, for progress beyond its own watermark. `execute_pipeline`
  returns from its join under the weaker condition `Joinable`, since a worker that meets an
  unregistered name terminates without keeping its promise; the two conditions differ by exactly
  such names. `validate_acyclic` decides only the acyclicity. The shipped example meets both
  conditions exactly for documents of at least 512 tokens; on a shorter one it never returns.
* When the engine does not fail, a branch that waits on the prefiller succeeds if and only if its
  watermark is a commit point (or it named none), the prefix fits its buffer, and its prompt is
  not empty, passes the budget check and is no longer than n_batch. The prefiller splits its chunks
  by n_batch; a branch sends its whole prompt as one batch, so a prompt between n_batch and the
  budget always fails, although the check that is to fail fast lets it pass.
* A branch that waits for the whole prefill forks from the last milestone export, not from the
  document: it sees the whole document if and only if the document's length is itself some
  branch's watermark (and no export was empty). The example describes its second branch as waiting
  for the full document; that branch always forks at 512 tokens, and
  `LicenseCheckerMissesDocument` gives a run in which it succeeds there on a longer document.
* The comments say that a failing prefiller does not leave dependents hanging. It does, for
  exactly the branches that `PrefillFailureExactly` names: watermark waiters above the last
  commit, whoever waits for them, and whoever waits for a cycle or an unregistered node.
  `PrefillFailureHangs` gives the run.
* Seven throw sites leave a context behind: in the prefiller binding, tokenizing, decoding,
  exporting and restoring, in a branch binding and tokenizing. The contexts still open after the
  join are exactly the throws at these sites, at most one for each worker; `LeakOutlivesJoin` is a
  run that ends with one.
* `llama_guard.h` demands that every engine call of a node is made under the global lock. After
  set-up this is kept (`EngineExclusion`). The prefiller's first `llama_init_from_model` and its last
  `llama_free` are outside the lock, and `SetUpIgnoresLock` is a run in which a branch is inside
  `execute` at that moment.
* A watermark that is neither a multiple of 128 nor the document's length is never frozen, and
  watermark 0 is never frozen either; such branches always throw.
* The context budget is added up in int32. `BudgetExact` gives the inputs on which the check means
  what its documentation says; signed overflow is read as wrap-around.

## Model

| member | source | states |
|---|---|---|
| Safety.ForkEqualsRecompute | src/nodes/analytical_node.cpp:116-252 | in every reachable state, a branch that succeeded holds the KV that an unshared agent computes from the same document prefix and prompt iff no gate up to its fork length was exported empty, and otherwise lacks the document up to the last such gate; a watermark branch forked at exactly its watermark, a commit point |
| Safety.ForkEqualsRecomputeOverRuns | src/core/pipeline_state.cpp:64-87 | after any run, it holds that KV iff the run has no empty export at or before its fork length; without empty exports always |
| Safety.KvTokenByToken | src/nodes/analytical_node.cpp:228-252 | a branch that succeeded holds the document's tokens since the last empty gate, token i at position i, and its prompt at the positions behind |
| Safety.KvTokenByTokenOverRuns | src/nodes/analytical_node.cpp:228-252 | after a run without empty exports cell i is document token i at position i, then prompt token i - len at position i |
| Safety.SnapshotTokenByToken | src/nodes/prefill_node.cpp:117-128 | a non-empty snapshot restores to the document's tokens since the last empty gate, each at its own position, consuming all its bytes |
| Outcomes.EmptyExportForksNothing | src/nodes/analytical_node.cpp:147-199 | a run in which an export of 0 bytes lets a branch succeed on a KV without the document |
| ForkSpec.ForkIsBaselineExactly | benchmarks/swarmkv_benchmark.cpp:108-157 | a fork is the unshared KV iff no gate below it was exported empty |
| Safety.PrefillContextIsDocument | src/nodes/prefill_node.cpp:198-231 | at each head of the chunk loop, after any number of teardowns, the live context is the document since the last empty export, token i at position i, hence the document prefix up to the watermark iff no gate so far was exported empty |
| Safety.SnapshotAvailability | src/core/pipeline_state.cpp:124-151 | a branch let through by the watermark wait finds a snapshot iff its watermark is within the document and a multiple of 128 or the document's length; the snapshot is the document's export iff no gate up to it was exported empty |
| Safety.SnapshotDomain | src/core/pipeline_state.cpp:36-90 | the frozen watermarks are exactly the registered commit points published so far |
| Safety.WatermarkZeroAlwaysThrows | src/nodes/analytical_node.cpp:116-127 | a branch with requirement 0 never gets past its fork source and never succeeds |
| Safety.OversizePromptAlwaysThrows | src/nodes/analytical_node.cpp:228-252 | a branch whose prompt is longer than n_batch never succeeds, whatever the budget check says |
| Safety.SucceededPrompt | src/nodes/analytical_node.cpp:207-226 | who succeeds had a non-empty prompt of at most n_batch tokens that leaves 128 tokens of headroom in n_ctx where nothing overflows |
| Safety.NullBufferNeverForks | src/nodes/analytical_node.cpp:201-203 | without a staging buffer no branch ever succeeds |
| Safety.FinalCanonicalPrefix | src/core/pipeline_state.cpp:47-78 | after a complete prefill the canonical prefix is the largest registered commit point, or 0 |
| Safety.FullPrefillBranchSeesDocument | src/nodes/analytical_node.cpp:128-143 | a branch waiting for the whole prefill, directly or through other branches, forks at the document's length iff that is a registered milestone, and then holds the unshared agent's KV of the whole document iff no export was empty |
| Safety.CanonicalCoherence | src/core/pipeline_state.cpp:54-89 | in every state outside the export, hence whenever a branch holds the lock, the buffer's first prefix_kv_serial_bytes bytes are what was frozen at prefix_seq_len; they encode the document up to there iff that is positive and no gate up to there was exported empty |
| Safety.PositionRange | include/swarmkv/context_budget.h:59-84 | prefill positions stay below n_ctx, and a branch's below n_ctx - 128 unless its int32 budget sum overflows |
| Safety.SnapshotsAreImmutable | src/core/pipeline_state.cpp:76-87 | over any stretch of any run the watermark never falls and frozen snapshots never change |
| Safety.SignalsAndFulfilsOnce | src/core/orchestrator.cpp:165-179 | across success and catch paths every branch signals at most once and fulfils its promise at most once, and has done so exactly when its state says |
| Safety.MilestoneGate | src/core/pipeline_state.cpp:153-193 | the counter of a milestone is the number of its unsignalled consumers, and nothing beyond a gate is decoded or published before all of them signalled |
| Safety.EngineExclusion | include/swarmkv/llama_guard.h:7-9 | while a branch is inside execute, no other branch can take a step there, and the prefiller none that calls the engine in its chunk loop; while the prefiller is between decoding and publishing, no branch can |
| Outcomes.SetUpIgnoresLock | src/nodes/prefill_node.cpp:172-177 | in every pipeline with a branch without dependencies, a run leads to the prefiller creating its context while that branch is inside execute |
| Safety.OpenContexts | src/nodes/analytical_node.cpp:176-271 | conservation: over any stretch of any run, contexts created and not freed are those a worker still owns plus one for every throw at a site without a free, and each worker throws there at most once |
| Safety.ContextBound | src/nodes/prefill_node.cpp:172-235 | at most two contexts are open beyond those throws left behind, at most one while the prefiller waits at a gate, and after all workers terminated exactly those; they are no more than the workers that threw |
| Safety.PlainContextBound | src/nodes/prefill_node.cpp:172-235 | if the prefiller throws at most on creating a context or for the document's size, and no branch while binding or tokenizing: two, one and none |
| Safety.LeakingSites | src/nodes/prefill_node.cpp:172-229 | a step leaves one more context open than its worker still owns exactly if it is a throw at one of seven named sites |
| Outcomes.LeakOutlivesJoin | src/nodes/prefill_node.cpp:172-183 | in every pipeline without branches a run in which the tokenizer fails ends, pool freed, with a context still open |
| Safety.FreedAfterJoin | src/core/orchestrator.cpp:182-188 | the pool is freed only when every worker has terminated and nobody holds the lock |
| Safety.ExecutionOrder | src/core/orchestrator.cpp:139-169 | once a branch executes, every branch it transitively waits for has ended, and every prefill wait on the way is satisfied |
| Safety.EveryMaximalRunCompletes | src/core/orchestrator.cpp:128-189 | in a well-gated pipeline runs are bounded, and one that can go no further has fulfilled every promise exactly once, whichever branches failed, and the pool is freed or can be |
| Safety.PrefillFailureExactly | src/core/orchestrator.cpp:141-179 | if the prefiller fails at watermark w, on any graph, exactly the branches that transitively wait for nothing above w, for no unregistered node and for no cycle have finished where the run ends |
| Outcomes.PrefillFailureHangs | src/nodes/prefill_node.cpp:172-177 | in every pipeline with a branch at a positive watermark, a run in which the first context cannot be created leaves that branch, every branch that waits for it, and the join, waiting whatever follows |
| Outcomes.StrandedForever | src/core/pipeline_state.cpp:93-103 | once the prefill thread has ended below a branch's watermark, the branch and whoever waits for it never start |
| Outcomes.BranchSucceedsExactly | src/nodes/analytical_node.cpp:100-289 | in a run without engine failures a finished branch that waits far enough on the prefiller, directly or through others, succeeded iff its milestone is a gate (or it named none), the prefix fits its buffer, and its prompt is non-empty, within budget and within n_batch; it then holds the unshared agent's KV |
| Outcomes.CanForkMeans | src/nodes/analytical_node.cpp:100-289 | in numbers, without overflow: the length is a multiple of 128 or the document's, its export fits, and prompt and 128 tokens of headroom fit behind it |
| Outcomes.WellGatedOutcome | src/core/orchestrator.cpp:128-189 | where a run without engine failures of a well-gated pipeline ends, every such branch has finished, and exactly those that can fork have succeeded |
| Outcomes.CompleteWithoutFaults | src/core/orchestrator.cpp:135-180 | a well-gated pipeline has a run without engine failures in which every worker finishes |
| Liveness.DeadlockFreeExactly | src/core/orchestrator.cpp:137-180 | without prefill failure: some worker can step until every promise is kept iff well gated, and some run keeps every promise iff well gated |
| Liveness.JoinExactly | src/core/orchestrator.cpp:182-188 | without prefill failure: every run that can go no further has terminated every worker, so that the join returns, iff joinable, and some run comes to the join iff joinable |
| Liveness.JoinableWhenRegistered | src/core/orchestrator.cpp:141-152 | well gated is joinable with every waited-for name registered |
| Liveness.FinishedExactly | src/core/orchestrator.cpp:141-152 | where any run on any graph ends, a branch has finished iff all it transitively waits for has happened and it waits for no cycle |
| Liveness.RunsAreBounded | src/nodes/prefill_node.cpp:198-231 | no run is longer than the work it starts with |
| Liveness.StepUsesWork | src/core/orchestrator.cpp:135-180 | every action of every worker strictly decreases the measure over tokens, phases and dependency positions |
| Liveness.CycleBlocks | src/core/orchestrator.cpp:148-151 | a cycle of waits keeps every run from completing |
| Liveness.BranchProgress | src/core/orchestrator.cpp:141-152 | a branch that can reach no cycle of waits and whose needs are met has a step that is no engine failure, or leads to a branch that has one |
| ProtocolInvariant.ReachableInv | src/core/orchestrator.cpp:98-189 | the invariant (lock, context, monitor, counters, waits, branch data, gates) holds in every reachable state |
| ProtocolInvariant.CounterKept | src/core/pipeline_state.cpp:161-174 | a consumer counter drops exactly when one of its consumers signals |
| ProtocolInvariant.WatermarkRises | src/core/pipeline_state.cpp:44-53 | each commit strictly raises the watermark although it is assigned without a maximum |
| ProtocolInvariant.GateMoment | src/core/pipeline_state.cpp:181-193 | when the prefiller's wait returns, no consumer of the gate waited for anything beyond it |
| ProtocolInvariant.EnterKept | src/nodes/analytical_node.cpp:101-144 | what a branch reads as its fork source while holding the lock is what is frozen at its fork length |
| ProtocolInvariant.ResumeKept | src/nodes/prefill_node.cpp:221-229 | the context rebuilt after a gate is the document since the last empty export, and empty iff the gate itself was exported empty |
| ProtocolInvariant.BranchFrame | src/nodes/analytical_node.cpp:145-174 | no step of a branch changes the canonical buffer, a snapshot, the prefill context or the program counter of another branch, in which that branch's copied bytes and KV live |
| Refinement.SetUpSection | src/nodes/prefill_node.cpp:172-197 | setting the prefiller up imperatively is the start of a run, or a throw at the site its fault names, with as many contexts left open |
| Refinement.ChunkSection | src/nodes/prefill_node.cpp:204-212 | decoding and committing a chunk imperatively, with a full or an empty export or throwing from either half, is a run of the transition system |
| Refinement.GateSection | src/core/pipeline_state.cpp:181-193 | of whatever run the branches take meanwhile, the wait at a gate lets pass the part up to the first signal that enables the transition system to resume, and all of it if none does |
| Refinement.RebuildSection | src/nodes/prefill_node.cpp:221-229 | re-creating and restoring the context, or throwing there, is a step of the transition system |
| Refinement.FinishSection | src/nodes/prefill_node.cpp:232-235 | marking completion and freeing the context is a run |
| Refinement.WaitSection | src/core/orchestrator.cpp:139-152 | a worker's loop over its dependencies is a run of wait steps up to the first that does not return, or to the crash at an unregistered name |
| Refinement.JoinSection | src/core/orchestrator.cpp:182-188 | freeing the pool after the join, every buffer exactly once, is the last step of a run |
| Refinement.BranchSection | src/core/orchestrator.cpp:165-179 | running a branch with its catch block imperatively is a run of the transition system, on success and for every fault at the site that the fault names, and leaves as many contexts open |
| AuditPipeline.AuditCompletesExactly | examples/codebase_audit_pipeline.cpp:57-73 | the shipped example can keep every promise, is deadlock-free, can join and always joins iff its document has at least 512 tokens |
| AuditPipeline.LicenseCheckerForksAt512 | examples/codebase_audit_pipeline.cpp:62-67 | its full-prefill branch always forks at 512 tokens, or at none for a shorter document |
| AuditPipeline.LicenseCheckerMissesDocument | examples/codebase_audit_pipeline.cpp:57-73 | if its prompts fit, a run without failures in which every worker finishes and that branch succeeds on a longer document with the KV of its first 512 tokens only |
| Orchestration.Orchestrator.ValidateAcyclic | src/core/orchestrator.cpp:20-53 | for any iteration order it throws iff the graph has a cycle, and the edge it names lies on one; a pipeline on a graph that passes has no cycle of waits, and one on a graph that does not has one if every name is registered |
| Orchestration.Orchestrator.Visit | src/core/orchestrator.cpp:24-42 | the recursive search ends, blackens its node and keeps the stack a walk, or reports a real cycle; it never looks up an absent key |
| Orchestration.Orchestrator.AddDependency | src/core/orchestrator.cpp:56-71 | each map gains the new name at the end of one list and placeholders, changes nothing else, and they stay each other's mirror, multiplicities included |
| Orchestration.MirrorKept | src/core/orchestrator.cpp:56-71 | recording an edge in both directions keeps keys equal, edges closed and multiplicities equal |
| Orchestration.CheckDecidesWaits | src/core/orchestrator.cpp:74-84 | a graph that passes the cycle check has no cycle of waits, and conversely if every name is registered |
| Orchestration.RankedIsAcyclic | src/core/orchestrator.cpp:40-41 | finishing times that fall along every edge exclude cycles |
| Orchestration.BackEdgeClosesCycle | src/core/orchestrator.cpp:29-33 | meeting a node on the recursion stack exhibits a cycle |
| Orchestration.Orchestrator.AddNode | src/core/orchestrator.cpp:87-95 | a duplicate name is refused and changes nothing |
| Orchestration.Orchestrator.AwaitDependencies | src/core/orchestrator.cpp:137-152 | the loop comes exactly to the first dependency that is unregistered or not available, by watermark for the prefiller under a non-negative requirement and by promise otherwise |
| Orchestration.Orchestrator.RegisterMilestones | src/core/orchestrator.cpp:99-112 | in any order the loop leaves as milestones exactly the positive requirements of the branches, each with the number of branches that require it |
| Orchestration.RegisteredForAll | src/core/orchestrator.cpp:99-112 | that monitor is the one the transition system starts from |
| DependencyGraph.CyclicReversed | src/core/orchestrator.cpp:56-84 | reversing all edges keeps cyclicity |
| Pipeline.PipelineState.CommitWatermark | src/core/pipeline_state.cpp:36-90 | the whole new state on each of its paths: null context, negative count, plain commit, export, export of 0 bytes, buffer too small, no buffer |
| Pipeline.PipelineState.ExportPrefix | src/core/pipeline_state.cpp:54-73 | a full export rewrites exactly the start of the staging buffer; an export of 0 bytes happens only if the engine failed and may overwrite the buffer; too small a buffer is left alone; nothing is published |
| Pipeline.PipelineState.WaitForMilestoneConsumers | src/core/pipeline_state.cpp:181-193 | the wait returns at the first signal that leaves no consumer, and otherwise stays blocked |
| Pipeline.SignalsLowerCounters | src/core/pipeline_state.cpp:161-174 | any series of signals lowers each counter by its own number of signals and changes nothing else |
| PrefillWorker.PrefillNode.Execute | src/nodes/prefill_node.cpp:168-249 | whatever it publishes is coherent however it ends, and is the document's own export unless the engine failed; it completes with the whole document committed, decoded in exactly the batches of AllBatches, and no consumer left at any gate, or is blocked at a gate with consumers left, or has a reason to throw; exactly the throws without a free leave a context open |
| PrefillWorker.PrefillNode.DecodeAndCommit | src/nodes/prefill_node.cpp:204-212 | the context gains exactly the next chunk, the monitor exactly its commit, with the whole export or, if the engine failed, an empty one |
| PrefillWorker.PrefillNode.Turn | src/nodes/prefill_node.cpp:198-231 | one turn commits exactly the next chunk in its batches; at a milestone it goes on only once every consumer has signalled, in a fresh context that holds the document since the last empty export |
| PrefillWorker.PrefillNode.Rebuild | src/nodes/prefill_node.cpp:221-229 | a frozen milestone restores to the document since the last empty export, unless the engine failed |
| PrefillWorker.DecodeTokenRange | src/nodes/prefill_node.cpp:97-143 | the slice is decoded token by token at its own positions, through exactly the batches of the partition |
| PrefillWorker.RestorePrefixSnapshot | src/nodes/prefill_node.cpp:146-165 | missing, empty, mismatching and good snapshots |
| BranchWorker.AnalyticalNode.Execute | src/nodes/analytical_node.cpp:100-289 | the resulting KV with the prompt token by token behind the prefix, decoded in a single batch within n_batch, the signal, how far each fault says it got, when it must throw, which throws leave a context open, and that staging buffer and earlier pool buffers are untouched |
| BranchWorker.AnalyticalNode.RunWorker | src/core/orchestrator.cpp:165-179 | the milestone is signalled exactly once whether or not execute throws |
| BranchWorker.AnalyticalNode.CopyOnFork | src/nodes/analytical_node.cpp:109-174 | the branch's own fresh buffer starts with the fork source's bytes, and bytes within the engine's state size never find it too small |
| BranchWorker.ExecuteMatchesBaseline | src/nodes/analytical_node.cpp:183-252 | on a coherent blackboard the KV of a successful execution is the unshared agent's iff no gate up to the fork length was exported empty |
| Baseline.RunBaselineAgent | benchmarks/swarmkv_benchmark.cpp:108-157 | the unshared agent holds document and prompt, token i at position i; it fails only with the engine or on a prompt above n_batch, and leaves its context open exactly when decoding the document or tokenizing the prompt fails |
| Baseline.DecodeTokensChunked | benchmarks/swarmkv_benchmark.cpp:78-100 | chunked decoding appends token i at position i |
| HostMemory.MemoryPool.FreeAll | src/memory/memory_pool.cpp:119-127 | afterwards every buffer ever handed out was freed exactly once, also when called again |
| HostMemory.MemoryPool.AllocateCache | src/memory/memory_pool.cpp:84-114 | a fresh registered buffer of the state size the engine reports, or of 1048576 bytes if it reports none, or nothing; its disposable context is always freed |
| HostMemory.MaterializeBranchCache | src/core/kv_handoff.cpp:36-58 | exactly the first n bytes of the target change, or the call is refused and nothing does |
| ContextBudget.ValidateContextBudget | include/swarmkv/context_budget.h:59-84 | throws exactly for a negative prefix, a failed tokenization, or an int32 sum with the longest prompt, each length cast to int32, that exceeds the limit; without overflow a pass means prefix + prompt + 128 <= n_ctx for every prompt, and a refusal that some prompt, or the prefix alone, breaks it |
| ContextBudget.VerdictMeaning | include/swarmkv/context_budget.h:59-84 | without overflow the verdict is the documented inequality with headroom 128 for every prompt |
| ContextBudget.LongestIsMaximal | include/swarmkv/context_budget.h:69-73 | the loop's value is the longest prompt's length |
| ContextBudget.BudgetExact | include/swarmkv/context_budget.h:75-77 | the check agrees with the documented inequality exactly when the sum does not wrap to an admitted value |
| ContextBudget.BudgetOverflowWitness | include/swarmkv/context_budget.h:75-77 | an input on which the check passes although the sum exceeds n_ctx |
| PrefixSpec.NextCommitPoint | src/nodes/prefill_node.cpp:198-211 | the chunk loop goes from one commit point to the next and skips none |
| PrefixSpec.PublishExportKeeps | src/core/pipeline_state.cpp:74-88 | publishing a milestone, exported or empty, freezes exactly that milestone and overwrites none |
| PrefixSpec.AllBatchesPartition | src/nodes/prefill_node.cpp:198-212 | across both nested chunkings and all teardowns the batches of a whole prefill are the document in order, none empty and none above n_batch |
| PrefixSpec.AllBatchesInOrder | src/nodes/prefill_node.cpp:97-143 | put together, the batches of a whole prefill are token i at position i for every i, and each is within n_batch |
| PrefixSpec.SpanExportRoundTrip | src/nodes/prefill_node.cpp:146-165 | an exported stretch of the document restores exactly, and its export is never the empty blob |
| KvCache.BatchesPartition | src/nodes/prefill_node.cpp:105-142 | the batches, put together, are the slice in order |
| KvCache.BatchesBounded | src/nodes/prefill_node.cpp:102-115 | no batch is empty or longer than n_batch, and all but the last are full |
| KvCache.ExportRoundTrip | src/nodes/analytical_node.cpp:182-199 | importing an export, even with other bytes behind it, yields the cells and the exported byte count |
| ForkSpec.ForkSourceSound | src/nodes/analytical_node.cpp:116-144 | on a coherent monitor every fork source is what is frozen at its length, which is the watermark asked for or the canonical length |

## Left out

- llama.cpp and ggml internals: a context is the cells of lane 0, and the serialised form is a stand-in for the engine's own format.
- Tokenization, document loading and the fallback text: token sequences are inputs, and tokenization may fail.
- Timings, `node_outputs` and metrics: no property depends on them.
- The benchmark's own two-branch harness and the `main` programs, except the example graph: they bypass the orchestrator's catch path.
- Logits flags: prefill and baseline set them differently; only KV contents are compared.
- Graphs with no prefill provider, with several, or with one that has upstream dependencies.
- Spurious wakeups, allocation exceptions inside the standard library, and the C++ memory model: each critical section is one step, and commit_watermark's export and publication are two.
- ChunkSection: the sections are runs one by one; no theorem composes them into one run of a whole prefill thread interleaved with the branches.
- A batch above n_batch: the engine refuses it with a return code, as for any other rejected batch; an engine that aborts the process instead is not modelled.
- PrefillNode.Execute: the other workers act only through the milestone signals they send, in any given order, since nothing else they do changes what the prefiller reads.
- BudgetExact: reads signed int32 overflow as wrap-around, where C++ leaves it undefined.
