/** The logical plan IR of src/planners/plan_node.rs: a closed sum type with
    one constructor per `PlanNode` variant. Payloads are flattened into the
    constructor; their internals are opaque handles except `Limit.n` and the
    child links (`input`, `plan`, `lhs`, `rhs`). */
module PlanNodes {

  import opened DataValues

  /** The borrowed shape of the repository's join kinds. */
  datatype JoinType = Inner | LeftOuter | RightOuter | FullOuter | Cross

  /** `schema` is the value the payload's own `schema()` reports; those
      payload methods are not part of this model, so it is kept as data. */
  datatype PlanNode =
    | Empty(schema: Schema)
    | Projection(expr: seq<Expr>, schema: Schema, input: PlanNode)
    | Aggregate(groupExpr: seq<Expr>, aggrExpr: seq<Expr>, schema: Schema, input: PlanNode)
    | Filter(condition: Expr, schema: Schema, input: PlanNode)
    | Limit(n: nat, schema: Schema, input: PlanNode)
    | Scan(db: string, table: string, schema: Schema)
    | Join(joinType: JoinType, conditions: seq<Expr>, schema: Schema, lhs: PlanNode, rhs: PlanNode)
    | ReadSource(db: string, table: string, schema: Schema, partitions: seq<Partition>, statistics: Statistics)
    | Explain(plan: PlanNode)
    | Select(plan: PlanNode)
    | SetVariable(variable: string, value: string)

  /** The variant tag alone, an independent reference for `Name`. */
  datatype Kind =
    | EmptyKind | ProjectionKind | AggregateKind | FilterKind | LimitKind | ScanKind
    | JoinKind | ReadSourceKind | ExplainKind | SelectKind | SetVariableKind

  function KindOf(n: PlanNode): Kind {
    match n
    case Empty(_) => EmptyKind
    case Projection(_, _, _) => ProjectionKind
    case Aggregate(_, _, _, _) => AggregateKind
    case Filter(_, _, _) => FilterKind
    case Limit(_, _, _) => LimitKind
    case Scan(_, _, _) => ScanKind
    case Join(_, _, _, _, _) => JoinKind
    case ReadSource(_, _, _, _, _) => ReadSourceKind
    case Explain(_) => ExplainKind
    case Select(_) => SelectKind
    case SetVariable(_, _) => SetVariableKind
  }

  /** The diagnostic label of a node: every label ends in "Plan". */
  function Name(n: PlanNode): (r: string)
    ensures |r| > 4 && r[|r| - 4..] == "Plan"
  {
    match n
    case Empty(_) => "EmptyPlan"
    case Scan(_, _, _) => "ScanPlan"
    case Join(_, _, _, _, _) => "JoinPlan"
    case Projection(_, _, _) => "ProjectionPlan"
    case Aggregate(_, _, _, _) => "AggregatePlan"
    case Filter(_, _, _) => "FilterPlan"
    case Limit(_, _, _) => "LimitPlan"
    case ReadSource(_, _, _, _, _) => "ReadSourcePlan"
    case Select(_) => "SelectPlan"
    case Explain(_) => "ExplainPlan"
    case SetVariable(_, _) => "SetVariablePlan"
  }

  /** Two nodes share a label exactly when they are the same variant. */
  lemma NameInjective(a: PlanNode, b: PlanNode)
    ensures Name(a) == Name(b) <==> KindOf(a) == KindOf(b)
  {
  }

  /** `schema()` panics (`unimplemented!`) on Explain and SetVariable, and
      Select delegates to its inner plan. */
  predicate HasSchema(n: PlanNode) {
    match n
    case Explain(_) => false
    case SetVariable(_, _) => false
    case Select(p) => HasSchema(p)
    case _ => true
  }

  /** The schema reported by the first non-Select node. */
  function OutputSchema(n: PlanNode): (r: Schema)
    requires HasSchema(n)
    ensures r == StripSelects(n).schema
  {
    if n.Select? then OutputSchema(n.plan) else n.schema
  }

  /** Peels every Select layer off the top of a plan. */
  function StripSelects(n: PlanNode): (r: PlanNode)
    ensures !r.Select?
    ensures HasSchema(n) ==> !r.Explain? && !r.SetVariable?
  {
    if n.Select? then StripSelects(n.plan) else n
  }

  /** Select is transparent for schemas: a plan has a schema exactly when the
      first non-Select node below it is neither Explain nor SetVariable, and
      then the two schemas agree. */
  lemma {:induction false} SelectSchemaTransparent(n: PlanNode)
    ensures HasSchema(n) <==> !StripSelects(n).Explain? && !StripSelects(n).SetVariable?
    ensures HasSchema(n) ==> OutputSchema(n) == StripSelects(n).schema
  {
    if n.Select? {
      SelectSchemaTransparent(n.plan);
    }
  }
}
