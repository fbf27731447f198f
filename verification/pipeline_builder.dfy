/** `PipelineBuilder::build` (src/processors/pipeline_builder.rs): compiles
    the physical chain of a plan, leaf to root, into a pipeline. The thread
    budget and the processor factories are collaborators, supplied through a
    `Context`; each may fail. */
module PipelineBuilder {

  import opened Wrappers
  import opened DataValues
  import opened PlanNodes
  import opened PlanLists
  import opened Chunking
  import opened Pipelines

  /** `maxThreads` is what `get_max_threads` reports; `construct(q)` is the
      failure, if any, of the `try_create` call that would build `q`. */
  datatype Context = Context(maxThreads: Result<nat, string>, construct: Proc -> Option<string>)

  function GetMaxThreads(ctx: Context): (r: Result<nat, QueryError>)
    ensures r.Success? <==> ctx.maxThreads.Success?
    ensures r.Success? ==> r.value == ctx.maxThreads.value
    ensures r.Failure? ==> r.error.CollaboratorError?
  {
    match ctx.maxThreads
    case Success(w) => Success(w)
    case Failure(reason) => Failure(CollaboratorError(reason))
  }

  /** A processor factory: yields exactly the requested processor, or the
      collaborator's failure. */
  function TryCreate(ctx: Context, q: Proc): (r: Result<Proc, QueryError>)
    ensures r.Success? <==> ctx.construct(q).None?
    ensures r.Success? ==> r.value == q
    ensures r.Failure? ==> r.error.CollaboratorError?
  {
    match ctx.construct(q)
    case None => Success(q)
    case Some(reason) => Failure(CollaboratorError(reason))
  }

  /** One source lane per chunk, in chunk order; the first factory failure
      aborts. */
  function AddSources(ctx: Context, p: Pipeline, db: string, table: string, chunks: seq<seq<Partition>>)
    : (r: Result<Pipeline, QueryError>)
    ensures r.Success? <==> forall i :: 0 <= i < |chunks| ==> ctx.construct(Source(db, table, chunks[i])).None?
    ensures r.Failure? ==> r.error.CollaboratorError?
    ensures r.Success? ==>
      && PipeNum(r.value) == PipeNum(p) + |chunks|
      && r.value.lanes[..PipeNum(p)] == p.lanes
      && forall i :: 0 <= i < |chunks| ==> r.value.lanes[PipeNum(p) + i] == [Source(db, table, chunks[i])]
    decreases |chunks|
  {
    if chunks == [] then Success(p)
    else
      var source :- TryCreate(ctx, Source(db, table, chunks[0]));
      var r := AddSources(ctx, AddSource(p, source), db, table, chunks[1..]);
      assert forall i :: 1 <= i < |chunks| ==> chunks[i] == chunks[1..][i - 1];
      r
  }

  /** The action for one list entry. The source's `Join` arm is ill-typed and
      cannot be reached (linearization without parents never lists a Join),
      so a Join entry is excluded rather than given a behaviour. */
  function Step(ctx: Context, p: Pipeline, n: PlanNode): Result<Pipeline, QueryError>
    requires !n.Join?
  {
    match n
    case Limit(limit, _, _) =>
      var local :- AddSimpleTransform(p, TryCreate(ctx, LimitTransform(limit)));
      if PipeNum(local) > 1 then
        AddSimpleTransform(MergeProcessor(local), TryCreate(ctx, LimitTransform(limit)))
      else
        Success(local)
    case Projection(expr, schema, _) =>
      AddSimpleTransform(p, TryCreate(ctx, ProjectionTransform(schema, expr)))
    case Aggregate(_, aggrExpr, schema, _) =>
      var partial :- AddSimpleTransform(p, TryCreate(ctx, AggregatePartialTransform(schema, aggrExpr)));
      AddSimpleTransform(MergeProcessor(partial), TryCreate(ctx, AggregateFinalTransform(schema, aggrExpr)))
    case Filter(condition, _, _) =>
      AddSimpleTransform(p, TryCreate(ctx, FilterTransform(condition)))
    case ReadSource(db, table, _, partitions, _) =>
      var workers :- GetMaxThreads(ctx);
      AddSources(ctx, p, db, table, Chunks(partitions, ChunkSize(|partitions|, workers)))
    case _ =>
      Failure(UnsupportedNode(Name(n)))
  }

  /** The loop over the list; the first failing step aborts. */
  function Compile(ctx: Context, plans: seq<PlanNode>, p: Pipeline): Result<Pipeline, QueryError>
    requires forall i :: 0 <= i < |plans| ==> !plans[i].Join?
    decreases |plans|
  {
    if plans == [] then Success(p)
    else
      var next :- Step(ctx, p, plans[0]);
      Compile(ctx, plans[1..], next)
  }

  /** `build`: linearize without parents, compile, and always finish with a
      merge, so a built pipeline has exactly one lane, holding one merge. */
  function Build(ctx: Context, root: PlanNode): (r: Result<Pipeline, QueryError>)
    ensures Depth(root) > MaxDepth ==> r == Failure(PlanTooDeep(MaxDepth))
    ensures r.Success? ==> PipeNum(r.value) == 1 && |r.value.lanes[0]| == 1 && r.value.lanes[0][0].Merge?
  {
    var plans :- SubplanToList(root);
    var p :- Compile(ctx, plans, Create());
    Success(MergeProcessor(p))
  }

  /** Filter and Projection add one processor to every lane and never merge. */
  lemma FilterProjectionKeepLanes(ctx: Context, p: Pipeline, n: PlanNode)
    requires n.Filter? || n.Projection?
    ensures var q := if n.Filter? then FilterTransform(n.condition) else ProjectionTransform(n.schema, n.expr);
      && (Step(ctx, p, n).Success? <==> PipeNum(p) == 0 || ctx.construct(q).None?)
      && (Step(ctx, p, n).Success? ==>
            && PipeNum(Step(ctx, p, n).value) == PipeNum(p)
            && (PipeNum(p) > 0 ==> Step(ctx, p, n).value.lanes == AppendEach(p.lanes, q)))
  {
  }

  /** Limit adds a local limit to every lane; only when more than one lane
      results does it merge and add a second, global limit. */
  lemma LimitStep(ctx: Context, p: Pipeline, n: PlanNode)
    requires n.Limit?
    ensures var q := LimitTransform(n.n);
      && (Step(ctx, p, n).Success? <==> PipeNum(p) == 0 || ctx.construct(q).None?)
      && (Step(ctx, p, n).Success? ==>
            Step(ctx, p, n).value.lanes
            == if PipeNum(p) > 1 then [[Merge(AppendEach(p.lanes, q)), q]]
               else AppendEach(p.lanes, q))
  {
    var q := LimitTransform(n.n);
    if PipeNum(p) == 0 {
      assert AppendEach(p.lanes, q) == [] == p.lanes;
    } else if PipeNum(p) > 1 && Step(ctx, p, n).Success? {
      var local := Pipeline(AppendEach(p.lanes, q));
      assert AddSimpleTransform(p, TryCreate(ctx, q)) == Success(local);
      var merged := MergeProcessor(local);
      assert Step(ctx, p, n) == AddSimpleTransform(merged, TryCreate(ctx, q));
      assert AppendEach(merged.lanes, q) == [merged.lanes[0] + [q]];
      assert merged.lanes[0] + [q] == [Merge(local.lanes), q];
    }
  }

  /** Aggregate always adds a partial aggregate to every lane, merges, and
      adds exactly one final aggregate, whatever the lane count. */
  lemma AggregateStep(ctx: Context, p: Pipeline, n: PlanNode)
    requires n.Aggregate?
    ensures var partial := AggregatePartialTransform(n.schema, n.aggrExpr);
      var final := AggregateFinalTransform(n.schema, n.aggrExpr);
      && (Step(ctx, p, n).Success? <==>
            (PipeNum(p) == 0 || ctx.construct(partial).None?) && ctx.construct(final).None?)
      && (Step(ctx, p, n).Success? ==>
            Step(ctx, p, n).value.lanes == [[Merge(AppendEach(p.lanes, partial)), final]])
  {
    var partial := AggregatePartialTransform(n.schema, n.aggrExpr);
    var final := AggregateFinalTransform(n.schema, n.aggrExpr);
    var local := if PipeNum(p) == 0 then p else Pipeline(AppendEach(p.lanes, partial));
    assert local.lanes == AppendEach(p.lanes, partial);
    var merged := MergeProcessor(local);
    if Step(ctx, p, n).Success? {
      assert AddSimpleTransform(p, TryCreate(ctx, partial)) == Success(local);
      assert Step(ctx, p, n) == AddSimpleTransform(merged, TryCreate(ctx, final));
      assert AppendEach(merged.lanes, final) == [merged.lanes[0] + [final]];
      assert merged.lanes[0] + [final] == [Merge(local.lanes), final];
    }
  }

  /** ReadSource is the only fan-out: it appends one source lane per chunk of
      its partitions, the chunks covering the partitions exactly, in order. */
  lemma ReadSourceStep(ctx: Context, p: Pipeline, n: PlanNode)
    requires n.ReadSource?
    ensures Step(ctx, p, n).Success? ==>
      && ctx.maxThreads.Success?
      && var chunks := Chunks(n.partitions, ChunkSize(|n.partitions|, ctx.maxThreads.value));
         && Flatten(chunks) == n.partitions
         && PipeNum(Step(ctx, p, n).value) == PipeNum(p) + |chunks|
         && Step(ctx, p, n).value.lanes[..PipeNum(p)] == p.lanes
         && forall i :: 0 <= i < |chunks| ==>
              Step(ctx, p, n).value.lanes[PipeNum(p) + i] == [Source(n.db, n.table, chunks[i])]
  {
  }

  /** Number of source lanes for `parts` partitions under a budget of
      `workers` threads. */
  function SourceLanes(parts: nat, workers: nat): nat {
    CeilDiv(parts, ChunkSize(parts, workers))
  }

  /** Reference lane count after one entry, from the lane count before it. */
  function LanesAfter(ctx: Context, n: PlanNode, lanes: nat): nat {
    match n
    case ReadSource(_, _, _, partitions, _) =>
      if ctx.maxThreads.Success? then lanes + SourceLanes(|partitions|, ctx.maxThreads.value) else lanes
    case Limit(_, _, _) => if lanes > 1 then 1 else lanes
    case Aggregate(_, _, _, _) => 1
    case _ => lanes
  }

  function ExpectedLanes(ctx: Context, plans: seq<PlanNode>, lanes: nat): nat
    decreases |plans|
  {
    if plans == [] then lanes else ExpectedLanes(ctx, plans[1..], LanesAfter(ctx, plans[0], lanes))
  }

  lemma StepLanes(ctx: Context, p: Pipeline, n: PlanNode)
    requires !n.Join? && Step(ctx, p, n).Success?
    ensures PipeNum(Step(ctx, p, n).value) == LanesAfter(ctx, n, PipeNum(p))
  {
    if n.ReadSource? {
      ChunkCount(n.partitions, ChunkSize(|n.partitions|, ctx.maxThreads.value));
    } else if n.Limit? {
      LimitStep(ctx, p, n);
    } else if n.Aggregate? {
      AggregateStep(ctx, p, n);
    }
  }

  /** A compiled list has the lane count the reference predicts. */
  lemma {:induction false} CompileLanes(ctx: Context, plans: seq<PlanNode>, p: Pipeline)
    requires forall i :: 0 <= i < |plans| ==> !plans[i].Join?
    requires Compile(ctx, plans, p).Success?
    ensures PipeNum(Compile(ctx, plans, p).value) == ExpectedLanes(ctx, plans, PipeNum(p))
    decreases |plans|
  {
    if plans != [] {
      var next := Step(ctx, p, plans[0]).value;
      StepLanes(ctx, p, plans[0]);
      CompileLanes(ctx, plans[1..], next);
    }
  }

  /** Compiling a physical chain fails only on a Scan or in a collaborator. */
  lemma {:induction false} CompileErrors(ctx: Context, plans: seq<PlanNode>, p: Pipeline)
    requires forall i :: 0 <= i < |plans| ==>
      plans[i].Aggregate? || plans[i].Projection? || plans[i].Filter?
      || plans[i].Limit? || plans[i].Scan? || plans[i].ReadSource?
    requires Compile(ctx, plans, p).Failure?
    ensures Compile(ctx, plans, p).error == UnsupportedNode("ScanPlan")
         || Compile(ctx, plans, p).error.CollaboratorError?
    decreases |plans|
  {
    match Step(ctx, p, plans[0])
    case Failure(_) =>
    case Success(next) =>
      CompileErrors(ctx, plans[1..], next);
  }

  /** Compiling a physical chain without a Scan succeeds when every
      collaborator does. */
  lemma {:induction false} CompileSucceeds(ctx: Context, plans: seq<PlanNode>, p: Pipeline)
    requires forall i :: 0 <= i < |plans| ==>
      plans[i].Aggregate? || plans[i].Projection? || plans[i].Filter?
      || plans[i].Limit? || plans[i].ReadSource?
    requires ctx.maxThreads.Success?
    requires forall q :: ctx.construct(q).None?
    ensures Compile(ctx, plans, p).Success?
    decreases |plans|
  {
    if plans != [] {
      assert Step(ctx, p, plans[0]).Success?;
      CompileSucceeds(ctx, plans[1..], Step(ctx, p, plans[0]).value);
    }
  }

  /** Every build failure is a too-deep plan (exactly when the path is too
      deep), a Scan reaching the compiler, or a collaborator failure. */
  lemma BuildErrors(ctx: Context, root: PlanNode)
    requires Build(ctx, root).Failure?
    ensures var e := Build(ctx, root).error;
      && (e == PlanTooDeep(MaxDepth) <==> Depth(root) > MaxDepth)
      && (e == PlanTooDeep(MaxDepth) || e == UnsupportedNode("ScanPlan") || e.CollaboratorError?)
  {
    if Depth(root) <= MaxDepth {
      CompileErrors(ctx, SubplanToList(root).value, Create());
    }
  }

  /** A chain that ends in a Scan never builds: the Scan is its first entry
      and has no pipeline action. */
  lemma ScanChainFails(ctx: Context, root: PlanNode)
    requires Terminal(root).Scan?
    ensures Build(ctx, root).Failure?
    ensures Depth(root) <= MaxDepth ==> Build(ctx, root).error == UnsupportedNode("ScanPlan")
  {
    if Depth(root) <= MaxDepth {
      BuildPlanListSpec(root, false);
      LeafFirstRootLast(root, false);
    }
  }

  /** With collaborators that never fail, a plan builds exactly when its path
      is within the depth bound and does not end in a Scan. */
  lemma BuildSucceedsIff(ctx: Context, root: PlanNode)
    requires ctx.maxThreads.Success?
    requires forall q :: ctx.construct(q).None?
    ensures Build(ctx, root).Success? <==> Depth(root) <= MaxDepth && !Terminal(root).Scan?
  {
    if Terminal(root).Scan? {
      ScanChainFails(ctx, root);
    } else if Depth(root) <= MaxDepth {
      var plans := SubplanToList(root).value;
      ScanOnlyAtLeaf(root, false);
      CompileSucceeds(ctx, plans, Create());
    }
  }

  lemma SourceStepLanes(ctx: Context, leaf: PlanNode, chunks: seq<seq<Partition>>)
    requires leaf.ReadSource? && ctx.maxThreads.Success?
    requires forall q :: ctx.construct(q).None?
    requires chunks == Chunks(leaf.partitions, ChunkSize(|leaf.partitions|, ctx.maxThreads.value))
    ensures Step(ctx, Create(), leaf)
         == Success(Pipeline(seq(|chunks|, i requires 0 <= i < |chunks| => [Source(leaf.db, leaf.table, chunks[i])])))
  {
    ReadSourceStep(ctx, Create(), leaf);
    var r := Step(ctx, Create(), leaf);
    var expected := seq(|chunks|, i requires 0 <= i < |chunks| => [Source(leaf.db, leaf.table, chunks[i])]);
    assert r.Success?;
    assert r.value.lanes == expected;
  }

  /** A two-entry list compiles as its two steps in order. */
  lemma CompileTwo(ctx: Context, leaf: PlanNode, root: PlanNode)
    requires !leaf.Join? && !root.Join?
    ensures Step(ctx, Create(), leaf).Failure? ==>
              Compile(ctx, [leaf, root], Create()) == Step(ctx, Create(), leaf)
    ensures Step(ctx, Create(), leaf).Success? ==>
              Compile(ctx, [leaf, root], Create()) == Step(ctx, Step(ctx, Create(), leaf).value, root)
  {
    assert [leaf, root][1..] == [root];
    assert [root][1..] == [];
    match Step(ctx, Create(), leaf)
    case Failure(_) =>
    case Success(mid) =>
      assert Compile(ctx, [leaf, root], Create()) == Compile(ctx, [root], mid);
      match Step(ctx, mid, root)
      case Failure(_) =>
      case Success(last) =>
        assert Compile(ctx, [], last) == Success(last);
  }

  lemma SourceThenOneList(root: PlanNode, leaf: PlanNode)
    requires !IsTerminal(root) && !IsParent(root) && Child(root) == leaf && leaf.ReadSource?
    ensures SubplanToList(root) == Success([leaf, root])
  {
    BuildPlanListSpec(root, false);
    assert Depth(leaf) == 0 && Depth(root) == 1;
    assert Visited(leaf, false) == [leaf];
    assert Visited(root, false) == [root] + [leaf];
    assert Reverse([root, leaf]) == [leaf, root];
  }

  /** Ten partitions under three threads give three source lanes (chunks of
      four, four and two); a Limit(5) above them caps each lane, merges, and
      caps the merged lane once more. */
  lemma LimitOverTenPartitions(ctx: Context, db: string, table: string, schema: Schema,
                               parts: seq<Partition>, stats: Statistics, limitSchema: Schema)
    requires ctx.maxThreads == Success(3)
    requires forall q :: ctx.construct(q).None?
    requires |parts| == 10
    ensures var lim := LimitTransform(5);
      Build(ctx, Limit(5, limitSchema, ReadSource(db, table, schema, parts, stats)))
      == Success(Pipeline([[Merge([[Merge([
           [Source(db, table, parts[..4]), lim],
           [Source(db, table, parts[4..8]), lim],
           [Source(db, table, parts[8..]), lim]]), lim]])]]))
  {
    var lim := LimitTransform(5);
    var leaf := ReadSource(db, table, schema, parts, stats);
    var root := Limit(5, limitSchema, leaf);
    SourceThenOneList(root, leaf);
    TenPartitionsThreeWorkers(parts);
    var sources := [[Source(db, table, parts[..4])], [Source(db, table, parts[4..8])], [Source(db, table, parts[8..])]];
    var chunks := [parts[..4], parts[4..8], parts[8..]];
    SourceStepLanes(ctx, leaf, chunks);
    assert sources == seq(3, i requires 0 <= i < 3 => [Source(db, table, chunks[i])]);
    LimitStep(ctx, Pipeline(sources), root);
    var limited := AppendEach(sources, lim);
    assert limited == [sources[0] + [lim], sources[1] + [lim], sources[2] + [lim]];
    assert sources[0] + [lim] == [Source(db, table, parts[..4]), lim];
    assert sources[1] + [lim] == [Source(db, table, parts[4..8]), lim];
    assert sources[2] + [lim] == [Source(db, table, parts[8..]), lim];
    assert limited == [[Source(db, table, parts[..4]), lim], [Source(db, table, parts[4..8]), lim],
                       [Source(db, table, parts[8..]), lim]];
    CompileTwo(ctx, leaf, root);
    var compiled := Pipeline([[Merge(limited), lim]]);
    assert Step(ctx, Pipeline(sources), root) == Success(compiled);
    assert Build(ctx, root) == Success(MergeProcessor(compiled));
  }

  /** A single partition gives a single lane, and a Limit above it adds no
      second limit. */
  lemma LimitOverOnePartition(ctx: Context, db: string, table: string, schema: Schema,
                              part: Partition, stats: Statistics, limitSchema: Schema, w: nat)
    requires ctx.maxThreads == Success(w)
    requires forall q :: ctx.construct(q).None?
    ensures var lim := LimitTransform(5);
      Build(ctx, Limit(5, limitSchema, ReadSource(db, table, schema, [part], stats)))
      == Success(Pipeline([[Merge([[Source(db, table, [part]), lim]])]]))
  {
    var lim := LimitTransform(5);
    var leaf := ReadSource(db, table, schema, [part], stats);
    var root := Limit(5, limitSchema, leaf);
    SourceThenOneList(root, leaf);
    assert Chunks([part], ChunkSize(1, w)) == [[part]];
    var sources := [[Source(db, table, [part])]];
    SourceStepLanes(ctx, leaf, [[part]]);
    assert sources == seq(1, i requires 0 <= i < 1 => [Source(db, table, [[part]][i])]);
    LimitStep(ctx, Pipeline(sources), root);
    assert sources[0] + [lim] == [Source(db, table, [part]), lim];
    assert AppendEach(sources, lim) == [sources[0] + [lim]] == [[Source(db, table, [part]), lim]];
    CompileTwo(ctx, leaf, root);
    var compiled := Pipeline(AppendEach(sources, lim));
    assert Step(ctx, Pipeline(sources), root) == Success(compiled);
    assert Build(ctx, root) == Success(MergeProcessor(compiled));
  }

  /** Four partitions and no thread budget give four lanes, one partition
      each; an Aggregate above them adds a partial aggregate per lane, one
      merge and exactly one final aggregate. */
  lemma AggregateOverFourPartitions(ctx: Context, db: string, table: string, schema: Schema,
                                    parts: seq<Partition>, stats: Statistics,
                                    groupExpr: seq<Expr>, aggrExpr: seq<Expr>, aggSchema: Schema)
    requires ctx.maxThreads == Success(0)
    requires forall q :: ctx.construct(q).None?
    requires |parts| == 4
    ensures var partial := AggregatePartialTransform(aggSchema, aggrExpr);
      var final := AggregateFinalTransform(aggSchema, aggrExpr);
      Build(ctx, Aggregate(groupExpr, aggrExpr, aggSchema, ReadSource(db, table, schema, parts, stats)))
      == Success(Pipeline([[Merge([[Merge([
           [Source(db, table, [parts[0]]), partial],
           [Source(db, table, [parts[1]]), partial],
           [Source(db, table, [parts[2]]), partial],
           [Source(db, table, [parts[3]]), partial]]), final]])]]))
  {
    var partial := AggregatePartialTransform(aggSchema, aggrExpr);
    var leaf := ReadSource(db, table, schema, parts, stats);
    var root := Aggregate(groupExpr, aggrExpr, aggSchema, leaf);
    SourceThenOneList(root, leaf);
    var c := Chunks(parts, 1);
    assert c == [[parts[0]], [parts[1]], [parts[2]], [parts[3]]] by {
      assert |c| == 4;
      forall i | 0 <= i < 4 ensures c[i] == [parts[i]] {
        ChunksOfOne(parts, i);
      }
    }
    var sources := [[Source(db, table, [parts[0]])], [Source(db, table, [parts[1]])],
                    [Source(db, table, [parts[2]])], [Source(db, table, [parts[3]])]];
    SourceStepLanes(ctx, leaf, c);
    assert sources == seq(4, i requires 0 <= i < 4 => [Source(db, table, c[i])]);
    AggregateStep(ctx, Pipeline(sources), root);
    var partials := AppendEach(sources, partial);
    assert partials
        == [sources[0] + [partial], sources[1] + [partial], sources[2] + [partial], sources[3] + [partial]];
    assert sources[0] + [partial] == [Source(db, table, [parts[0]]), partial];
    assert sources[1] + [partial] == [Source(db, table, [parts[1]]), partial];
    assert sources[2] + [partial] == [Source(db, table, [parts[2]]), partial];
    assert sources[3] + [partial] == [Source(db, table, [parts[3]]), partial];
    assert partials
        == [[Source(db, table, [parts[0]]), partial], [Source(db, table, [parts[1]]), partial],
            [Source(db, table, [parts[2]]), partial], [Source(db, table, [parts[3]]), partial]];
    CompileTwo(ctx, leaf, root);
    var compiled := Pipeline([[Merge(partials), AggregateFinalTransform(aggSchema, aggrExpr)]]);
    assert Step(ctx, Pipeline(sources), root) == Success(compiled);
    assert Build(ctx, root) == Success(MergeProcessor(compiled));
  }
}
