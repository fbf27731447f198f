/** Rebuilding a plan from its list (`plan_list_to_node` in
    src/planners/plan_node.rs): a strict left fold of the list into a plan
    builder. The builder's own operations are not part of this model; they
    are supplied as a record of functions, each of which may fail. */
module PlanRebuild {

  import opened Wrappers
  import opened DataValues
  import opened PlanNodes
  import PlanLists

  /** The `PlanBuilder` operations the fold calls, over a builder state `B`. */
  datatype BuilderOps<!B> = BuilderOps(
    empty: B,
    from: PlanNode -> B,
    project: (B, seq<Expr>) -> Result<B, QueryError>,
    aggregate: (B, seq<Expr>, seq<Expr>) -> Result<B, QueryError>,
    filter: (B, Expr) -> Result<B, QueryError>,
    limit: (B, nat) -> Result<B, QueryError>,
    explain: B -> Result<B, QueryError>,
    select: B -> Result<B, QueryError>,
    build: B -> Result<PlanNode, QueryError>)

  /** Entries that replace the builder with a fresh one based on the entry. */
  predicate IsReset(n: PlanNode) {
    n.ReadSource? || n.Join?
  }

  /** Entries the fold skips. */
  predicate IsNoOp(n: PlanNode) {
    n.Empty? || n.Scan? || n.SetVariable?
  }

  /** One iteration of the loop. */
  function Step<B>(ops: BuilderOps<B>, b: B, n: PlanNode): Result<B, QueryError> {
    match n
    case Projection(expr, _, _) => ops.project(b, expr)
    case Aggregate(groupExpr, aggrExpr, _, _) => ops.aggregate(b, groupExpr, aggrExpr)
    case Filter(condition, _, _) => ops.filter(b, condition)
    case Limit(limit, _, _) => ops.limit(b, limit)
    case ReadSource(_, _, _, _, _) => Success(ops.from(n))
    case Explain(_) => ops.explain(b)
    case Select(_) => ops.select(b)
    case Join(_, _, _, _, _) => Success(ops.from(n))
    case Empty(_) => Success(b)
    case Scan(_, _, _) => Success(b)
    case SetVariable(_, _) => Success(b)
  }

  /** The loop: entries are applied left to right; the first error ends it. */
  function Fold<B>(ops: BuilderOps<B>, b: B, list: seq<PlanNode>): Result<B, QueryError>
    decreases |list|
  {
    if list == [] then Success(b)
    else
      var b' :- Step(ops, b, list[0]);
      Fold(ops, b', list[1..])
  }

  function PlanListToNode<B>(ops: BuilderOps<B>, list: seq<PlanNode>): Result<PlanNode, QueryError> {
    var b :- Fold(ops, ops.empty, list);
    ops.build(b)
  }

  /** Folding a concatenation folds the first part, then the second from the
      state the first part left, unless the first part already failed. */
  lemma {:induction false} FoldAppend<B>(ops: BuilderOps<B>, b: B, p: seq<PlanNode>, s: seq<PlanNode>)
    ensures Fold(ops, b, p + s)
         == match Fold(ops, b, p)
            case Failure(e) => Failure(e)
            case Success(b') => Fold(ops, b', s)
    decreases |p|
  {
    if p == [] {
      assert p + s == s;
    } else {
      assert (p + s)[0] == p[0];
      assert (p + s)[1..] == p[1..] + s;
      match Step(ops, b, p[0])
      case Failure(e) =>
      case Success(b1) =>
        FoldAppend(ops, b1, p[1..], s);
    }
  }

  /** A ReadSource or Join entry discards everything accumulated before it:
      once the prefix has not failed, the outcome depends only on the entry
      and what follows it. */
  lemma ResetDiscardsPrefix<B>(ops: BuilderOps<B>, b: B, list: seq<PlanNode>, i: nat)
    requires i < |list| && IsReset(list[i])
    requires Fold(ops, b, list[..i]).Success?
    ensures Fold(ops, b, list) == Fold(ops, ops.from(list[i]), list[i + 1..])
  {
    assert list == list[..i] + list[i..];
    FoldAppend(ops, b, list[..i], list[i..]);
    assert list[i..][1..] == list[i + 1..];
  }

  /** A builder error at entry `i` aborts the whole rebuild with that error. */
  lemma ErrorAborts<B>(ops: BuilderOps<B>, list: seq<PlanNode>, i: nat, b: B, e: QueryError)
    requires i < |list|
    requires Fold(ops, ops.empty, list[..i]) == Success(b)
    requires Step(ops, b, list[i]) == Failure(e)
    ensures Fold(ops, ops.empty, list) == Failure(e)
    ensures PlanListToNode(ops, list) == Failure(e)
  {
    assert list == list[..i] + list[i..];
    FoldAppend(ops, ops.empty, list[..i], list[i..]);
  }

  /** The list without its Empty, Scan and SetVariable entries. */
  function DropNoOps(list: seq<PlanNode>): (r: seq<PlanNode>)
    ensures |r| <= |list|
    ensures forall i :: 0 <= i < |r| ==> !IsNoOp(r[i])
  {
    if list == [] then [] else (if IsNoOp(list[0]) then [] else [list[0]]) + DropNoOps(list[1..])
  }

  /** Empty, Scan and SetVariable entries leave the builder unchanged, so
      removing them changes nothing. */
  lemma {:induction false} NoOpsIgnored<B>(ops: BuilderOps<B>, b: B, list: seq<PlanNode>)
    ensures Fold(ops, b, list) == Fold(ops, b, DropNoOps(list))
    decreases |list|
  {
    if list != [] {
      var rest := DropNoOps(list[1..]);
      if IsNoOp(list[0]) {
        assert DropNoOps(list) == rest;
        NoOpsIgnored(ops, b, list[1..]);
      } else {
        assert DropNoOps(list) == [list[0]] + rest;
        assert ([list[0]] + rest)[1..] == rest;
        match Step(ops, b, list[0])
        case Failure(_) =>
        case Success(b1) =>
          NoOpsIgnored(ops, b1, list[1..]);
      }
    }
  }

  /** Rebuilding what `plan_to_list` produced for a plan that ends in a
      ReadSource never uses the empty builder: it starts from that source. */
  lemma RebuildStartsAtSource<B>(ops: BuilderOps<B>, n: PlanNode)
    requires PlanLists.PlanToList(n).Success?
    requires PlanLists.Terminal(n).ReadSource?
    ensures var l := PlanLists.PlanToList(n).value;
      |l| > 0 && l[0] == PlanLists.Terminal(n)
      && Fold(ops, ops.empty, l) == Fold(ops, ops.from(PlanLists.Terminal(n)), l[1..])
  {
    var l := PlanLists.PlanToList(n).value;
    PlanLists.LeafFirstRootLast(n, true);
    assert l[..0] == [];
    ResetDiscardsPrefix(ops, ops.empty, l, 0);
  }
}
