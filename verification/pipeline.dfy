/** The `Pipeline` that `PipelineBuilder::build` drives. Its implementation
    is not part of this model; this module states the contract the builder
    relies on: parallel lanes, each a chain of processors, that can be
    extended one processor per lane, grown by a source lane, or fanned in to
    a single lane. */
module Pipelines {

  import opened Wrappers
  import opened DataValues

  /** The processors the builder creates. A `Merge` keeps the lanes it fans
      in, so a finished pipeline is the whole processor graph. */
  datatype Proc =
    | Source(db: string, table: string, partitions: seq<Partition>)
    | LimitTransform(limit: nat)
    | ProjectionTransform(schema: Schema, expr: seq<Expr>)
    | FilterTransform(condition: Expr)
    | AggregatePartialTransform(schema: Schema, aggrExpr: seq<Expr>)
    | AggregateFinalTransform(schema: Schema, aggrExpr: seq<Expr>)
    | Merge(inputs: seq<seq<Proc>>)

  datatype Pipeline = Pipeline(lanes: seq<seq<Proc>>)

  function Create(): (p: Pipeline)
    ensures PipeNum(p) == 0
  {
    Pipeline([])
  }

  function PipeNum(p: Pipeline): nat {
    |p.lanes|
  }

  /** `add_source`: a new lane whose only processor is the source. */
  function AddSource(p: Pipeline, source: Proc): (r: Pipeline)
    ensures PipeNum(r) == PipeNum(p) + 1
    ensures r.lanes[..PipeNum(p)] == p.lanes && r.lanes[PipeNum(p)] == [source]
  {
    Pipeline(p.lanes + [[source]])
  }

  /** Every lane extended by the same processor. */
  function AppendEach(lanes: seq<seq<Proc>>, proc: Proc): (r: seq<seq<Proc>>)
    ensures |r| == |lanes|
    ensures forall i :: 0 <= i < |lanes| ==> r[i] == lanes[i] + [proc]
  {
    seq(|lanes|, i requires 0 <= i < |lanes| => lanes[i] + [proc])
  }

  /** `add_simple_transform`: the factory runs once per lane and its
      processor is appended to every lane; a factory failure aborts. With no
      lane the factory is never run and nothing changes. */
  function AddSimpleTransform(p: Pipeline, made: Result<Proc, QueryError>): (r: Result<Pipeline, QueryError>)
    ensures r.Success? <==> PipeNum(p) == 0 || made.Success?
    ensures r.Failure? ==> made.Failure? && r.error == made.error
    ensures r.Success? ==> PipeNum(r.value) == PipeNum(p)
    ensures r.Success? && PipeNum(p) > 0 ==> r.value.lanes == AppendEach(p.lanes, made.value)
    ensures r.Success? && PipeNum(p) == 0 ==> r.value == p
  {
    if PipeNum(p) == 0 then Success(p)
    else
      var proc :- made;
      Success(Pipeline(AppendEach(p.lanes, proc)))
  }

  /** `merge_processor`: all lanes fan in to exactly one lane. */
  function MergeProcessor(p: Pipeline): (r: Pipeline)
    ensures PipeNum(r) == 1
    ensures r.lanes[0] == [Merge(p.lanes)]
  {
    Pipeline([[Merge(p.lanes)]])
  }
}
