# FuseQuery plan linearization, pipeline compilation and the constant function — a Dafny model

This project models three pieces of the FuseQuery query engine (Rust):

* **Plan linearization and rebuild** (`src/planners/plan_node.rs`). The
  `PlanNode` sum type; `name()`; `schema()`; `build_plan_list`, which walks a
  plan down its single-input chain (a Join's `lhs` only), with a depth bound
  of 128, and returns the visited nodes leaf to root; `subplan_to_list` and
  `plan_to_list`; and `plan_list_to_node`, a left fold of such a list into a
  `PlanBuilder`.
* **Pipeline compilation** (`src/processors/pipeline_builder.rs`).
  `PipelineBuilder::build` turns the physical chain of a plan into a pipeline
  of parallel lanes. ReadSource splits its partitions into chunks and adds
  one source lane per chunk; this is the only fan-out. Filter and Projection
  add one processor per lane. Limit adds a local limit per lane, and merges
  and adds a global limit only when more than one lane remains. Aggregate
  adds a partial aggregate per lane, always merges, then adds one final
  aggregate. A final merge is always appended.
* **`ConstantFunction`** (`src/functions/function_constant.rs`). A function
  that evaluates to its stored value and whose aggregate state never changes.

Files and modules:

| file | module | contents |
|---|---|---|
| wrappers.dfy | `Wrappers` | `Option`, `Result` (with `:-`), `QueryError` |
| datavalues.dfy | `DataValues` | opaque schemas, expressions, partitions, blocks, values |
| plan_node.dfy | `PlanNodes` | `PlanNode`, `Name`, `OutputSchema` |
| plan_list.dfy | `PlanLists` | `Walk`/`BuildPlanList`, reference `Visited`, linearization lemmas |
| plan_rebuild.dfy | `PlanRebuild` | `plan_list_to_node` as `Fold` over a `BuilderOps` record |
| chunking.dfy | `Chunking` | chunk-size arithmetic, `slice::chunks`, lane-count bounds |
| pipeline.dfy | `Pipelines` | the contract assumed of `Pipeline` |
| pipeline_builder.dfy | `PipelineBuilder` | `Step`, `Compile`, `Build` and their lemmas |
| function_constant.dfy | `FunctionConstant` | `ConstantFunction` and its call sequences |

Modelling choices:

* The loop of `build_plan_list` is `Walk`, a tail-recursive function. It
  carries the explicit depth counter and the accumulator, and checks the
  bound before each node, as the source does. `Visited` is an independent
  reference with no counter. `BuildPlanListSpec` proves that linearization
  fails exactly when the path has more than 128 non-terminal nodes.
  Otherwise it returns `Reverse(Visited(n, withParent))`.
* A pipeline is `Pipeline(lanes: seq<seq<Proc>>)`. A merge leaves one lane
  holding `Merge(previousLanes)`, so a built pipeline records its whole
  processor graph. The contract of `add_source`, `add_simple_transform` and
  `merge_processor` is assumed (see Left out).
* Collaborators are parameters. `PipelineBuilder.Context` supplies the
  result of `get_max_threads` and, for each processor, whether its
  `try_create` fails. `PlanRebuild.BuilderOps` supplies the `PlanBuilder`
  operations as functions that may fail.
* Two edge cases of `build`:
  * When the thread budget `W` is 0 or at least the partition count `P`,
    the code uses chunk size 1, which gives `P` lanes (none when `P = 0`).
    `AggregateOverFourPartitions` shows four lanes for `W = 0`.
  * The code's `Join` arm is ill-typed and never reached, because
    `subplan_to_list` never lists a Join. `Step` excludes `Join` by
    precondition, and `SubplanToList`'s contract discharges that
    precondition.

## Model

| member | source | states |
|---|---|---|
| PlanNodes.Name | src/planners/plan_node.rs:45-59 | every variant has a label, and every label ends in "Plan" |
| PlanNodes.NameInjective | src/planners/plan_node.rs:45-59 | two nodes have the same label iff they are the same variant |
| PlanNodes.OutputSchema | src/planners/plan_node.rs:29-43 | defined only when no Explain/SetVariable is reached (those panic); the result is the schema of the first non-Select node, through any number of Select layers |
| PlanNodes.SelectSchemaTransparent | src/planners/plan_node.rs:29-43 | a plan has a schema iff the first non-Select node below it is not Explain/SetVariable, and the schema is that node's schema |
| PlanLists.WalkMatchesVisited | src/planners/plan_node.rs:64-136 | the loop started at depth d fails iff d plus the path's non-terminal count exceeds 128; otherwise it appends the recorded path nodes, root first |
| PlanLists.BuildPlanListSpec | src/planners/plan_node.rs:63-139 | linearization fails with the depth error iff the path has more than 128 non-terminal nodes; otherwise it returns the recorded nodes leaf to root |
| PlanLists.SubplanToList | src/planners/plan_node.rs:141-143 | succeeds iff depth is at most 128; the list never holds Select, Explain, Join, Empty or SetVariable |
| PlanLists.PlanToList | src/planners/plan_node.rs:145-147 | succeeds iff depth is at most 128; the list never holds Empty or SetVariable |
| PlanLists.SubplanIsPlanWithoutParents | src/planners/plan_node.rs:98-118 | `subplan_to_list` is `plan_to_list` with its Select/Join/Explain entries removed, and both succeed or fail together |
| PlanLists.PlanListLength | src/planners/plan_node.rs:78-134 | list length = non-terminal path nodes, minus Select/Join/Explain when parents are not wanted, plus 1 for a Scan/ReadSource terminal |
| PlanLists.LeafFirstRootLast | src/planners/plan_node.rs:127-138 | a Scan/ReadSource terminal is element 0, and a recorded root is the last element |
| PlanLists.ScanOnlyAtLeaf | src/planners/plan_node.rs:127-130 | a Scan can appear only at index 0, and only as the path's terminal |
| PlanLists.JoinFollowsLhsOnly | src/planners/plan_node.rs:105-111 | a Join's list is its lhs's list, plus the Join itself when parents are wanted |
| PlanLists.JoinIgnoresRhs | src/planners/plan_node.rs:105-111 | Joins differing only in rhs give the same outcome, apart from the Join entry itself |
| PlanRebuild.FoldAppend | src/planners/plan_node.rs:150-182 | folding `p + s` folds `p` and then `s` from the resulting builder; an error in `p` is the result |
| PlanRebuild.ResetDiscardsPrefix | src/planners/plan_node.rs:165-176 | a ReadSource or Join entry discards the accumulated builder: the outcome depends only on that entry and the entries after it |
| PlanRebuild.ErrorAborts | src/planners/plan_node.rs:151-173 | a builder error at any entry is the result of the whole rebuild |
| PlanRebuild.NoOpsIgnored | src/planners/plan_node.rs:177-179 | Empty, Scan and SetVariable entries leave the builder unchanged; removing them all changes nothing |
| PlanRebuild.RebuildStartsAtSource | src/planners/plan_node.rs:165-167 | rebuilding a ReadSource-terminated `plan_to_list` result starts from that source, never from the empty builder |
| Chunking.ChunkSize | src/processors/pipeline_builder.rs:78-88 | chunk size is 1 when W = 0 or W >= P, else the ceiling of P/W: (size-1)*W < P <= size*W |
| Chunking.Chunks | src/processors/pipeline_builder.rs:90-92 | the chunks concatenate to the partition list in order; each is non-empty and at most the size; all but the last have exactly the size |
| Chunking.ChunkCount | src/processors/pipeline_builder.rs:90-92 | the number of chunks is the ceiling of length over chunk size |
| Chunking.SourceLaneCount | src/processors/pipeline_builder.rs:78-102 | source lanes = P when W = 0 or W >= P (0 when P = 0), else between 1 and W |
| Chunking.TenPartitionsThreeWorkers | src/processors/pipeline_builder.rs:78-92 | P = 10, W = 3 gives chunk size 4 and chunks of 4, 4 and 2 |
| Pipelines.AddSource | src/processors/pipeline_builder.rs:101-101 | assumed contract: one new lane holding only the source; existing lanes unchanged |
| Pipelines.AddSimpleTransform | src/processors/pipeline_builder.rs:69-75 | assumed contract: the factory's processor is appended to every lane, lane count unchanged; a factory failure aborts |
| Pipelines.MergeProcessor | src/processors/pipeline_builder.rs:112-112 | assumed contract: exactly one lane remains, holding a merge of all previous lanes |
| PipelineBuilder.AddSources | src/processors/pipeline_builder.rs:94-102 | one source lane per chunk, in chunk order, after the existing lanes; fails iff some source's construction fails |
| PipelineBuilder.FilterProjectionKeepLanes | src/processors/pipeline_builder.rs:42-75 | Filter (69-75) and Projection (42-49) append exactly their transform to every lane and never merge |
| PipelineBuilder.LimitStep | src/processors/pipeline_builder.rs:31-40 | a local limit(n) per lane; a merge and a global limit(n) happen iff more than one lane exists |
| PipelineBuilder.AggregateStep | src/processors/pipeline_builder.rs:50-65 | a partial aggregate per lane, then a merge, then exactly one final aggregate, for any lane count |
| PipelineBuilder.ReadSourceStep | src/processors/pipeline_builder.rs:76-103 | appends one source lane per chunk; the chunks cover the partitions exactly |
| PipelineBuilder.CompileLanes | src/processors/pipeline_builder.rs:29-111 | the compiled lane count equals that of an independent per-entry lane-count reference |
| PipelineBuilder.Build | src/processors/pipeline_builder.rs:26-113 | a built pipeline has one lane holding one merge; a too-deep plan fails with the depth error |
| PipelineBuilder.CompileErrors | src/processors/pipeline_builder.rs:104-109 | compiling a physical chain fails only with "unsupported ScanPlan" or a collaborator error |
| PipelineBuilder.BuildErrors | src/processors/pipeline_builder.rs:26-113 | every build error is the depth error (iff the path is too deep), unsupported ScanPlan, or a collaborator error |
| PipelineBuilder.ScanChainFails | src/processors/pipeline_builder.rs:104-109 | a Scan-terminated chain never builds; within the depth bound it fails naming "ScanPlan" |
| PipelineBuilder.BuildSucceedsIff | src/processors/pipeline_builder.rs:26-113 | when collaborators never fail, a build succeeds iff depth is at most 128 and the chain does not end in Scan |
| PipelineBuilder.LimitOverTenPartitions | src/processors/pipeline_builder.rs:31-102 | Limit(5) over 10 partitions with W = 3: three lanes of 4, 4 and 2 partitions, each limited, then merged and limited once more |
| PipelineBuilder.LimitOverOnePartition | src/processors/pipeline_builder.rs:31-40 | Limit(5) over one lane adds exactly one limit |
| PipelineBuilder.AggregateOverFourPartitions | src/processors/pipeline_builder.rs:50-92 | Aggregate over 4 partitions with W = 0: four lanes each with a partial aggregate, one merge, one final aggregate |
| FunctionConstant.IgnoresInput | src/functions/function_constant.rs:22-32 | evaluation does not depend on the block; type and nullability do not depend on the schema |
| FunctionConstant.StateNeverChanges | src/functions/function_constant.rs:34-46 | no sequence of set_depth/accumulate/merge calls fails or changes the state |
| FunctionConstant.Idempotent | src/functions/function_constant.rs:34-46 | repeating a call sequence gives the same state as running it once |
| FunctionConstant.ResultsAgree | src/functions/function_constant.rs:22-50 | the partial state `accumulate_result` is exactly `[merge_result]`; `eval` is that result as a scalar; `return_type` and `nullable` are that result's type and nullness |
| FunctionConstant.ResultsIgnoreHistory | src/functions/function_constant.rs:18-50 | after `try_create(v)` and any prior calls, return_type, nullable, eval, accumulate_result and merge_result still report `v` |

## Left out

- `Pipeline` and its processors are not part of this model. `add_source`, `add_simple_transform` and `merge_processor` follow an assumed contract (Pipelines module). With no lanes, `add_simple_transform` is a no-op and never runs its factory. The pipeline operations never fail themselves; only `get_max_threads` and the processors' `try_create` calls may fail.
- `PlanBuilder` internals are not part of this model. Its operations are parameters, so the round trip `plan_list_to_node(plan_to_list(t))` cannot be proved and is not stated.
- Payload `schema()` methods are not part of this model: each payload's reported schema is a stored field. Only the Select delegation and the Explain/SetVariable panic are modelled.
- PlanNodes.OutputSchema: a panic (`unimplemented!`) is modelled as a precondition, not as an error value.
- The `Join` arm of `build` is ill-typed and unreachable. It is excluded by a precondition of `Step`/`Compile` and given no behaviour.
- `get_max_threads` gives an unsigned integer that is cast to `usize` (pipeline_builder.rs:78); it is modelled as `nat`, without truncation.
- Run-time behaviour is left out: lane execution, threads, merge synchronisation and data flow.
- Left out as content: `DataValue`, `DataBlock` and `DataSchema`, expression evaluation, the SQL parser, and the display/graphviz visitors. These values are opaque handles. `DataValue`'s definition is not part of this model: `IsNull` is a stand-in (a value is null when its type is the null type or it carries no payload), so `nullable` is only as precise as that definition.
- `ConstantFunction`'s `Display` impl and the other `Function` variants are left out.
- src/planners/mod.rs (module wiring) and src/planners/plan_join.rs (unused data) are not modelled; only the `JoinType` enum shape is borrowed.
