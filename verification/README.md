# UOR framework pipeline engine, modelled in Dafny

This project models the pipeline engine of the `uor_framework` Rust library (`src/lib.rs`):

- the **Manifold** graph: a map from node id to node plus an adjacency-list map, with
  `add_node` (insert or overwrite) and the atomic, endpoint-checking `add_edge`;
- the **MemoryCortex**: 144 prime reference slots built positionally;
- **Chart::from_json**: the one validation, that the JSON text is not empty;
- the **CognitiveStack**: foundation models in list order, then the scheduler, the HPC operator
  and the quaternion embedding, stopping at the first error;
- the default stage implementations (`NullFoundationModel`, `UorKernel`, `ExampleOperator`,
  `RoundRobinScheduler`, `DefaultQuaternionEmbedding`).

One Dafny module stands for each Rust sub-module: `Errors` (crate-level `UorError` and
`UorResult`), `Charts`, `Manifolds`, `Cortex`, `FoundationModels`, `Kernel`, `Embedding`,
`Operators`, `Concurrency` and `CognitiveStacks`.

How the model is shaped:

- `Manifolds.Manifold` is a class whose `nodes` and `edges` maps `AddNode` and `AddEdge` update in
  place. `Manifolds.Graph` is its value, which is what `clone` copies and what the stages pass
  along. The pure functions `InsertNode` and `InsertEdge` state what one call does. The class
  methods are proved to change the maps exactly as those functions say.
- Each trait object becomes a function-typed field of `CognitiveStacks.CognitiveStack`.
  Foundation models keep their own state (`&mut self`): the model type `M` comes with a function
  `(M, Graph) -> (M, UorResult<Graph>)`. The embedding gets the cortex and returns the cortex as
  it stands after the call, even when the call fails, because writes through `&mut` stay.
- `CognitiveStack.Process` runs the source's loop. It also hands back a ghost log of every stage
  call: the stage, its input and its answer. Its contract says that the result, the log, the new
  model states and the new cortex are those of the function `Pipeline`. `Pipeline` is the
  model loop `RunModels` (src/lib.rs:455-457) followed, when every model succeeded, by
  `RunStages`, the scheduler, operator and embedding steps (src/lib.rs:459-468). The ordering
  and fail-fast properties are lemmas about `Pipeline`, `RunModels` and `RunStages`.

A missing edge endpoint gives `UorError::General` (src/lib.rs:166-170); `UorError` has no
reference-error kind (src/lib.rs:54-63). The constructor that takes a model list is
`new_default` (src/lib.rs:438-446).

## Model

| member | source | states |
|---|---|---|
| `Charts.FromJson` | src/lib.rs:100-113 | fails with `ChartError` exactly when the JSON text is empty; otherwise stores name, version and JSON text verbatim |
| `Manifolds.Manifold.constructor` | src/lib.rs:152-157 | a new manifold has no nodes and no adjacency entries, and satisfies the edge invariant |
| `Manifolds.InsertNode` | src/lib.rs:160-162 | the id maps to the new node (last write wins); every other key and all edges are unchanged; the node count grows by one exactly when the id was new |
| `Manifolds.Manifold.AddNode` | src/lib.rs:160-162 | updates the maps in place exactly as `InsertNode`; preserves the edge invariant |
| `Manifolds.InsertNodesKeys` | src/lib.rs:160-162 | after a sequence of inserts, the node keys are the old keys plus the inserted ids, and the edges are unchanged |
| `Manifolds.NodeCountIsDistinctIds` | src/lib.rs:160-162 | repeated inserts into an empty manifold leave as many nodes as there are distinct ids |
| `Manifolds.LastWriteWins` | src/lib.rs:160-162 | the node stored under an id is the last one inserted with that id |
| `Manifolds.InsertEdge` | src/lib.rs:165-174 | fails with `General` exactly when `from` or `to` is not a node; on success the nodes are unchanged, `to` is appended to `from`'s list (an empty list is created first if needed), and every other list is unchanged |
| `Manifolds.Manifold.AddEdge` | src/lib.rs:165-174 | atomic: on error neither map changes and the error is returned; on success the maps become those of `InsertEdge`; preserves the edge invariant |
| `Manifolds.InsertNodePreservesClosed` | src/lib.rs:160-162 | inserting a node keeps every edge source and target a node |
| `Manifolds.InsertEdgePreservesClosed` | src/lib.rs:165-174 | a successful edge insertion keeps every edge source and target a node |
| `Manifolds.DuplicateEdgesKept` | src/lib.rs:172 | adding the same edge twice leaves both copies at the end of the list, in order |
| `Manifolds.BuildTwoNodeManifold` | tests/cog_stack_tests.rs:43-70 | nodes A and B plus the edge A->B give 2 nodes and 1 adjacency list equal to `["B"]`; an edge on an empty manifold fails with `General` |
| `Cortex.New144` | src/lib.rs:250-261 | exactly 144 slots; slot `i` has `prime_index == i` and no data |
| `Cortex.Default` | src/lib.rs:243-247 | the default cortex is pristine in the same sense |
| `Cortex.PristineIsUnique` | src/lib.rs:254-259 | any cortex with 144 empty, positionally indexed slots is the one `new_144` builds, so every construction gives the same store |
| `FoundationModels.NullProcessManifold` | src/lib.rs:208-212 | the null model returns its input unchanged and keeps its state |
| `FoundationModels.NullIsIdentity` | src/lib.rs:208-212 | the null model hands back every graph unchanged |
| `Kernel.KernelProcessManifold` | src/lib.rs:498-504 | the kernel returns its input unchanged and keeps its state |
| `Kernel.KernelIsIdentity` | src/lib.rs:498-504 | the kernel hands back every graph unchanged |
| `Operators.ExampleApply` | src/lib.rs:343-348 | the example operator succeeds and returns its input unchanged |
| `Concurrency.RoundRobinSchedule` | src/lib.rs:370-376 | the round-robin scheduler always succeeds |
| `Embedding.DefaultEmbedManifold` | src/lib.rs:309-321 | the default embedding leaves the cortex unchanged and yields exactly one quaternion, (1, 0, 0, 0) |
| `CognitiveStacks.RunModelsCallsInOrder` | src/lib.rs:455-457 | the model loop calls models `i, i+1, ...` in list order, each at most once, each with the state it held before the loop |
| `CognitiveStacks.RunModelsChains` | src/lib.rs:455-457 | the first model gets the input graph and each later one gets the previous model's output; the loop stops at the first error and returns it unchanged; it returns success only after calling every model |
| `CognitiveStacks.RunModelsStates` | src/lib.rs:455-457 | each model that ran keeps the state its own call left it in (`&mut self`); models the loop did not reach are untouched |
| `CognitiveStacks.ProcessRunsStagesInOrder` | src/lib.rs:453-469 | the calls of a run follow the order models `0..N`, scheduler, operator, embedding, with no gap and no repeat; at most `N + 3` calls |
| `CognitiveStacks.ProcessFailsFast` | src/lib.rs:453-469 | every call except the last succeeded; the run fails exactly when the last call failed, and it returns that call's error unchanged, so no later stage runs; it succeeds exactly when `N + 3` calls were made and the last one succeeded |
| `CognitiveStacks.ProcessForwardsManifold` | src/lib.rs:453-469 | the first stage gets the input graph; each model and the scheduler get the previous model's output; the operator gets exactly the graph the scheduler saw; the embedding gets the operator's output |
| `CognitiveStacks.RunStagesOutcome` | src/lib.rs:459-468 | steps 2 to 4 make one to three calls (scheduler, operator, embedding, in that order), stop at the first error and return it unchanged, and succeed only after all three calls succeed |
| `CognitiveStacks.RunStagesFlow` | src/lib.rs:459-468 | the scheduler and the operator both get the graph the models produced; the embedding gets the operator's output; only the embedding call changes the cortex |
| `CognitiveStacks.ProcessCallsEachStage` | src/lib.rs:453-469 | each logged answer is what that stage gives on that input, with the model state the stack held before the run |
| `CognitiveStacks.ProcessUpdatesModels` | src/lib.rs:455-457 | after a run, each model that ran holds the state its own call left it in (`&mut self`), and every other model keeps its state |
| `CognitiveStacks.ProcessWritesCortexOnlyByEmbedding` | src/lib.rs:466 | a run that stopped before the embedding leaves the cortex as it was; one that reached the embedding keeps what the embedding call left, even when that call failed |
| `CognitiveStacks.IdentityModelsPassThrough` | src/lib.rs:455-457 | when every model is an identity, the model loop succeeds with the input graph and shows every model that graph |
| `CognitiveStacks.IdentityStackPreservesManifold` | src/lib.rs:453-469 | with identity models and operator, and a scheduler and embedding that succeed, the run succeeds with `N + 3` calls; every stage sees the input graph, so node and edge counts are preserved |
| `CognitiveStacks.NullStackRoundTrip` | tests/cog_stack_tests.rs:175-181 | a stack of null models with the default capabilities succeeds on any graph, shows every stage that graph and leaves the cortex as it was |
| `CognitiveStacks.KernelStackRoundTrip` | tests/cog_stack_tests.rs:183-190 | the same holds for a stack of kernels; the orchestrator gives the kernel no special treatment |
| `CognitiveStacks.CognitiveStack.Default` | src/lib.rs:416-429 | exactly one default model, the default scheduler, operator and embedding, and a pristine 144-slot cortex |
| `CognitiveStacks.CognitiveStack.NewDefault` | src/lib.rs:438-446 | keeps the given model list unchanged and installs the default capabilities and a pristine 144-slot cortex |
| `CognitiveStacks.CognitiveStack.Process` | src/lib.rs:453-469 | the result, the call log, the new model states and the new cortex are those of `Pipeline`; scheduler, operator and embedding are not replaced |
| `CognitiveStacks.ProcessTwoNodeManifold` | tests/cog_stack_tests.rs:192-207 | a two-node, one-edge manifold built with `Manifold` and run through a `new_default` stack of kernels succeeds, and the embedding sees 2 nodes and 1 adjacency entry |

## Left out

- `Chart::parse` (src/lib.rs:118-121) and `MemoryCortex::link_manifold` (src/lib.rs:264-267) are stubs that always return `Ok` and touch nothing. They have no behaviour to model.
- Floating point: `Quaternion` components and `PrimeReference.data` have type `Cortex.F64`, a synonym of Dafny `real` that stands for `f64`. Nothing computes on them; only the constants `1.0` and `0.0` of the default embedding appear.
- Concurrency behind `Scheduler` is not modelled. The scheduler is a function from the graph to success or an error. Its own `&mut self` state is not modelled either, so two runs with the same scheduler on the same graph get the same answer.
- Dynamic dispatch: each `Box<dyn Trait>` is a function-typed field, not a trait object.
- `HashMap` hashing and iteration order: the maps are Dafny `map`s.
- The "up to 12 models" comment (src/lib.rs:400) is not checked by the source, so it is not an invariant here.
- The quaternions the embedding returns are thrown away by `process`, as in the source. They appear only in the ghost call log.
- `UorKernel::new` and the `Default` derives of the unit-like stage structs: each of those types has a single value, the datatype constructor (`UorKernel`, `NullFoundationModel`).
- The edge invariant (`EdgesClosed`) is not a precondition of `AddNode` or `AddEdge`. The Rust fields are public, so callers can break it. The model only proves that the two operations keep it.
- `Manifolds.BuildTwoNodeManifold` and `CognitiveStacks.ProcessTwoNodeManifold` stand for the Rust tests. The multi-model test (tests/cog_stack_tests.rs:195-198) puts a `NullFoundationModel` and a `UorKernel` in one `Vec<M>`, which a single model type `M` cannot hold. The model runs two kernels instead, and `IdentityStackPreservesManifold` covers any list of identity models.
- `Debug` and `Clone` derives: values are immutable in Dafny, so a clone is the same value.
