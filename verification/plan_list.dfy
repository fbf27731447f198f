/** Linearization of a plan (`build_plan_list`, `subplan_to_list`,
    `plan_to_list` in src/planners/plan_node.rs). The loop of the source is
    modelled by `Walk`, a tail-recursive function carrying the explicit depth
    counter and the accumulator; `Visited` is an independent, counter-free
    reference definition that the lemmas relate it to. */
module PlanLists {

  import opened Wrappers
  import opened PlanNodes

  /** The depth bound of the source (`max_depth = 128`). */
  const MaxDepth: nat := 128

  /** Nodes at which the walk stops. */
  predicate IsTerminal(n: PlanNode) {
    n.Empty? || n.Scan? || n.ReadSource? || n.SetVariable?
  }

  /** Nodes recorded only when the caller asks for parents. */
  predicate IsParent(n: PlanNode) {
    n.Select? || n.Join? || n.Explain?
  }

  /** Whether the walk appends `n` to its list. */
  predicate Recorded(n: PlanNode, withParent: bool) {
    || n.Aggregate? || n.Projection? || n.Filter? || n.Limit?
    || n.Scan? || n.ReadSource?
    || (withParent && IsParent(n))
  }

  /** Number of constructors in a plan tree; decreases along `Child`. */
  function Size(n: PlanNode): nat {
    match n
    case Projection(_, _, i) => 1 + Size(i)
    case Aggregate(_, _, _, i) => 1 + Size(i)
    case Filter(_, _, i) => 1 + Size(i)
    case Limit(_, _, i) => 1 + Size(i)
    case Join(_, _, _, l, r) => 1 + Size(l) + Size(r)
    case Explain(p) => 1 + Size(p)
    case Select(p) => 1 + Size(p)
    case _ => 1
  }

  /** The node the walk moves to: the input, the inner plan, or a join's lhs. */
  function Child(n: PlanNode): (r: PlanNode)
    requires !IsTerminal(n)
    ensures Size(r) < Size(n)
  {
    match n
    case Projection(_, _, i) => i
    case Aggregate(_, _, _, i) => i
    case Filter(_, _, i) => i
    case Limit(_, _, i) => i
    case Join(_, _, _, l, _) => l
    case Explain(p) => p
    case Select(p) => p
  }

  /** Number of non-terminal nodes on the walk's path (Aggregate, Projection,
      Filter, Limit, Select, Join, Explain). */
  function Depth(n: PlanNode): nat
    decreases Size(n)
  {
    if IsTerminal(n) then 0 else 1 + Depth(Child(n))
  }

  /** Number of Select, Join and Explain nodes on the walk's path. */
  function ParentCount(n: PlanNode): nat
    decreases Size(n)
  {
    if IsTerminal(n) then 0 else (if IsParent(n) then 1 else 0) + ParentCount(Child(n))
  }

  /** The node the walk stops at. */
  function Terminal(n: PlanNode): (r: PlanNode)
    ensures IsTerminal(r)
    decreases Size(n)
  {
    if IsTerminal(n) then n else Terminal(Child(n))
  }

  function Here(n: PlanNode, withParent: bool): seq<PlanNode> {
    if Recorded(n, withParent) then [n] else []
  }

  /** Reference: the recorded nodes of the path, root first. */
  function Visited(n: PlanNode, withParent: bool): seq<PlanNode>
    decreases Size(n)
  {
    Here(n, withParent) + (if IsTerminal(n) then [] else Visited(Child(n), withParent))
  }

  function Reverse<T>(s: seq<T>): (r: seq<T>)
    ensures |r| == |s|
    ensures forall i :: 0 <= i < |s| ==> r[i] == s[|s| - 1 - i]
  {
    if s == [] then [] else Reverse(s[1..]) + [s[0]]
  }

  /** The loop of `build_plan_list`: the bound is checked before each node. */
  function Walk(plan: PlanNode, withParent: bool, depth: nat, list: seq<PlanNode>)
    : Result<seq<PlanNode>, QueryError>
    decreases plan
  {
    if depth > MaxDepth then Failure(PlanTooDeep(MaxDepth))
    else match plan
      case Aggregate(_, _, _, input) => Walk(input, withParent, depth + 1, list + [plan])
      case Projection(_, _, input) => Walk(input, withParent, depth + 1, list + [plan])
      case Filter(_, _, input) => Walk(input, withParent, depth + 1, list + [plan])
      case Limit(_, _, input) => Walk(input, withParent, depth + 1, list + [plan])
      case Select(inner) =>
        Walk(inner, withParent, depth + 1, if withParent then list + [plan] else list)
      case Join(_, _, _, lhs, _) =>
        Walk(lhs, withParent, depth + 1, if withParent then list + [plan] else list)
      case Explain(inner) =>
        Walk(inner, withParent, depth + 1, if withParent then list + [plan] else list)
      case SetVariable(_, _) => Success(list)
      case Empty(_) => Success(list)
      case Scan(_, _, _) => Success(list + [plan])
      case ReadSource(_, _, _, _, _) => Success(list + [plan])
  }

  function BuildPlanList(n: PlanNode, withParent: bool): Result<seq<PlanNode>, QueryError> {
    var list :- Walk(n, withParent, 0, []);
    Success(Reverse(list))
  }

  /** The walk from depth `d` fails exactly when the path has more than
      `MaxDepth - d` non-terminal nodes; otherwise it appends the recorded
      nodes of the path, root first. */
  lemma {:induction false} WalkMatchesVisited(p: PlanNode, withParent: bool, d: nat, acc: seq<PlanNode>)
    ensures Walk(p, withParent, d, acc)
         == if d + Depth(p) <= MaxDepth then Success(acc + Visited(p, withParent))
            else Failure(PlanTooDeep(MaxDepth))
    decreases Size(p)
  {
    if d > MaxDepth {
    } else if IsTerminal(p) {
      assert Visited(p, withParent) == Here(p, withParent);
      assert acc + Here(p, withParent) == (if p.Scan? || p.ReadSource? then acc + [p] else acc);
    } else {
      var acc' := acc + Here(p, withParent);
      assert acc' == if Recorded(p, withParent) then acc + [p] else acc;
      assert Walk(p, withParent, d, acc) == Walk(Child(p), withParent, d + 1, acc') by {
        match p
        case Select(_) =>
        case Join(_, _, _, _, _) =>
        case Explain(_) =>
        case _ =>
      }
      WalkMatchesVisited(Child(p), withParent, d + 1, acc');
      assert acc' + Visited(Child(p), withParent) == acc + Visited(p, withParent);
    }
  }

  /** Linearization succeeds iff the path holds at most 128 non-terminal
      nodes, and then yields the recorded nodes leaf to root. */
  lemma BuildPlanListSpec(n: PlanNode, withParent: bool)
    ensures BuildPlanList(n, withParent)
         == if Depth(n) <= MaxDepth then Success(Reverse(Visited(n, withParent)))
            else Failure(PlanTooDeep(MaxDepth))
  {
    WalkMatchesVisited(n, withParent, 0, []);
    assert [] + Visited(n, withParent) == Visited(n, withParent);
  }

  lemma {:induction false} VisitedAreRecorded(n: PlanNode, withParent: bool)
    ensures forall i :: 0 <= i < |Visited(n, withParent)| ==> Recorded(Visited(n, withParent)[i], withParent)
    decreases Size(n)
  {
    if !IsTerminal(n) {
      VisitedAreRecorded(Child(n), withParent);
    }
  }

  /** `subplan_to_list`: the physical chain, never holding a Select, Explain,
      Join, Empty or SetVariable node. */
  function SubplanToList(n: PlanNode): (r: Result<seq<PlanNode>, QueryError>)
    ensures r.Success? <==> Depth(n) <= MaxDepth
    ensures r.Failure? ==> r.error == PlanTooDeep(MaxDepth)
    ensures r.Success? ==> forall i :: 0 <= i < |r.value| ==>
      && (r.value[i].Aggregate? || r.value[i].Projection? || r.value[i].Filter?
         || r.value[i].Limit? || r.value[i].Scan? || r.value[i].ReadSource?)
  {
    BuildPlanListSpec(n, false);
    VisitedAreRecorded(n, false);
    BuildPlanList(n, false)
  }

  /** `plan_to_list`: the chain with its Select, Join and Explain wrappers;
      Empty and SetVariable are never listed. */
  function PlanToList(n: PlanNode): (r: Result<seq<PlanNode>, QueryError>)
    ensures r.Success? <==> Depth(n) <= MaxDepth
    ensures r.Failure? ==> r.error == PlanTooDeep(MaxDepth)
    ensures r.Success? ==> forall i :: 0 <= i < |r.value| ==>
      !r.value[i].Empty? && !r.value[i].SetVariable?
  {
    BuildPlanListSpec(n, true);
    VisitedAreRecorded(n, true);
    BuildPlanList(n, true)
  }

  /** The list with its Select, Join and Explain entries removed. */
  function DropParents(s: seq<PlanNode>): (r: seq<PlanNode>)
    ensures |r| <= |s|
    ensures forall i :: 0 <= i < |r| ==> !IsParent(r[i])
  {
    if s == [] then [] else (if IsParent(s[0]) then [] else [s[0]]) + DropParents(s[1..])
  }

  lemma {:induction false} DropParentsAppend(a: seq<PlanNode>, b: seq<PlanNode>)
    ensures DropParents(a + b) == DropParents(a) + DropParents(b)
    decreases |a|
  {
    if a == [] {
      assert a + b == b;
    } else {
      assert (a + b)[0] == a[0];
      assert (a + b)[1..] == a[1..] + b;
      DropParentsAppend(a[1..], b);
      var h := if IsParent(a[0]) then [] else [a[0]];
      assert DropParents(a + b) == h + DropParents(a[1..] + b);
      assert DropParents(a) == h + DropParents(a[1..]);
    }
  }

  lemma ReverseAppend<T>(a: seq<T>, b: seq<T>)
    ensures Reverse(a + b) == Reverse(b) + Reverse(a)
  {
    var l, r := Reverse(a + b), Reverse(b) + Reverse(a);
    assert |l| == |r|;
    forall i | 0 <= i < |l|
      ensures l[i] == r[i]
    {
      if i < |b| {
        assert l[i] == (a + b)[|a| + |b| - 1 - i] == b[|b| - 1 - i];
      } else {
        assert l[i] == (a + b)[|a| + |b| - 1 - i] == a[|a| - 1 - (i - |b|)];
      }
    }
  }

  lemma {:induction false} DropParentsReverse(s: seq<PlanNode>)
    ensures DropParents(Reverse(s)) == Reverse(DropParents(s))
    decreases |s|
  {
    if s != [] {
      var h := if IsParent(s[0]) then [] else [s[0]];
      var t := DropParents(s[1..]);
      DropParentsReverse(s[1..]);
      assert Reverse(s) == Reverse(s[1..]) + [s[0]];
      DropParentsAppend(Reverse(s[1..]), [s[0]]);
      assert DropParents([s[0]]) == h;
      assert DropParents(s) == h + t;
      ReverseAppend(h, t);
      assert Reverse(h) == h;
    }
  }

  lemma {:induction false} VisitedWithoutParents(n: PlanNode)
    ensures Visited(n, false) == DropParents(Visited(n, true))
    decreases Size(n)
  {
    assert DropParents(Here(n, true)) == Here(n, false) by {
      if Recorded(n, true) {
        assert DropParents([n]) == (if IsParent(n) then [] else [n]) + DropParents([]);
      }
    }
    if IsTerminal(n) {
      assert Visited(n, true) == Here(n, true);
      assert Visited(n, false) == Here(n, false);
    } else {
      var c := Child(n);
      VisitedWithoutParents(c);
      DropParentsAppend(Here(n, true), Visited(c, true));
      assert Visited(n, true) == Here(n, true) + Visited(c, true);
      assert Visited(n, false) == Here(n, false) + Visited(c, false);
    }
  }

  /** `subplan_to_list` is `plan_to_list` with its Select, Join and Explain
      entries removed: `with_parent` affects only those three variants, and
      never whether linearization succeeds. */
  lemma SubplanIsPlanWithoutParents(n: PlanNode)
    ensures SubplanToList(n).Success? <==> PlanToList(n).Success?
    ensures PlanToList(n).Success? ==> SubplanToList(n).value == DropParents(PlanToList(n).value)
  {
    BuildPlanListSpec(n, false);
    BuildPlanListSpec(n, true);
    VisitedWithoutParents(n);
    DropParentsReverse(Visited(n, true));
  }

  lemma {:induction false} VisitedLength(n: PlanNode, withParent: bool)
    ensures |Visited(n, withParent)| + (if withParent then 0 else ParentCount(n))
         == Depth(n) + (if Terminal(n).Scan? || Terminal(n).ReadSource? then 1 else 0)
    decreases Size(n)
  {
    if !IsTerminal(n) {
      VisitedLength(Child(n), withParent);
    }
  }

  /** The list holds one entry per non-terminal node of the path, less the
      Select/Join/Explain nodes when parents are not wanted, plus one for a
      Scan or ReadSource terminal (none for Empty or SetVariable). */
  lemma PlanListLength(n: PlanNode, withParent: bool)
    requires BuildPlanList(n, withParent).Success?
    ensures |BuildPlanList(n, withParent).value| + (if withParent then 0 else ParentCount(n))
         == Depth(n) + (if Terminal(n).Scan? || Terminal(n).ReadSource? then 1 else 0)
  {
    BuildPlanListSpec(n, withParent);
    VisitedLength(n, withParent);
  }

  lemma {:induction false} VisitedEndsAtTerminal(n: PlanNode, withParent: bool)
    requires Terminal(n).Scan? || Terminal(n).ReadSource?
    ensures |Visited(n, withParent)| > 0
    ensures Visited(n, withParent)[|Visited(n, withParent)| - 1] == Terminal(n)
    decreases Size(n)
  {
    if !IsTerminal(n) {
      VisitedEndsAtTerminal(Child(n), withParent);
    }
  }

  /** The list runs leaf to root: a Scan or ReadSource terminal comes first
      and a recorded root comes last. */
  lemma LeafFirstRootLast(n: PlanNode, withParent: bool)
    requires BuildPlanList(n, withParent).Success?
    ensures var l := BuildPlanList(n, withParent).value;
      (Terminal(n).Scan? || Terminal(n).ReadSource?) ==> |l| > 0 && l[0] == Terminal(n)
    ensures var l := BuildPlanList(n, withParent).value;
      Recorded(n, withParent) ==> |l| > 0 && l[|l| - 1] == n
  {
    BuildPlanListSpec(n, withParent);
    if Terminal(n).Scan? || Terminal(n).ReadSource? {
      VisitedEndsAtTerminal(n, withParent);
    }
  }

  /** A Join is followed down its lhs only: its list is the lhs's list, with
      the Join itself appended when parents are wanted. */
  lemma JoinFollowsLhsOnly(j: PlanNode, withParent: bool)
    requires j.Join?
    ensures BuildPlanList(j, withParent).Success? <==> Depth(j.lhs) < MaxDepth
    ensures BuildPlanList(j, withParent).Success? ==>
      && BuildPlanList(j.lhs, withParent).Success?
      && BuildPlanList(j, withParent).value
         == BuildPlanList(j.lhs, withParent).value + (if withParent then [j] else [])
  {
    BuildPlanListSpec(j, withParent);
    BuildPlanListSpec(j.lhs, withParent);
    var v := Visited(j.lhs, withParent);
    assert Visited(j, withParent) == Here(j, withParent) + v;
    if withParent {
      assert Reverse([j] + v) == Reverse(v) + [j];
    } else {
      assert Here(j, withParent) + v == v;
    }
  }

  /** Nothing of a Join's rhs reaches the list: two Joins that differ only in
      their rhs linearize alike, up to the Join entry itself. */
  lemma JoinIgnoresRhs(j1: PlanNode, j2: PlanNode, withParent: bool)
    requires j1.Join? && j2.Join? && j1.lhs == j2.lhs
    ensures BuildPlanList(j1, withParent).Success? <==> BuildPlanList(j2, withParent).Success?
    ensures BuildPlanList(j1, withParent).Success? ==>
      var l1 := BuildPlanList(j1, withParent).value;
      var l2 := BuildPlanList(j2, withParent).value;
      if withParent then |l1| == |l2| > 0 && l1[..|l1| - 1] == l2[..|l2| - 1] else l1 == l2
  {
    JoinFollowsLhsOnly(j1, withParent);
    JoinFollowsLhsOnly(j2, withParent);
    if withParent && BuildPlanList(j1, withParent).Success? {
      var l := BuildPlanList(j1.lhs, withParent).value;
      assert (l + [j1])[..|l|] == l;
      assert (l + [j2])[..|l|] == l;
    }
  }

  lemma {:induction false} VisitedScanIsTerminal(n: PlanNode, withParent: bool)
    ensures forall i :: 0 <= i < |Visited(n, withParent)| && Visited(n, withParent)[i].Scan? ==>
      i == |Visited(n, withParent)| - 1 && Visited(n, withParent)[i] == Terminal(n)
    decreases Size(n)
  {
    if !IsTerminal(n) {
      var h: seq<PlanNode>, vc: seq<PlanNode> := Here(n, withParent), Visited(Child(n), withParent);
      VisitedScanIsTerminal(Child(n), withParent);
      assert Visited(n, withParent) == h + vc;
      forall i | 0 <= i < |h + vc| && (h + vc)[i].Scan?
        ensures i == |h + vc| - 1 && (h + vc)[i] == Terminal(n)
      {
        assert i >= |h|;
        var j := i - |h|;
        assert (h + vc)[i] == vc[j];
        assert j == |vc| - 1 && vc[j] == Terminal(Child(n));
        assert Terminal(n) == Terminal(Child(n));
      }
    }
  }

  /** A Scan can only be the leaf entry of a list, and only when the path
      ends in that Scan. */
  lemma ScanOnlyAtLeaf(n: PlanNode, withParent: bool)
    requires BuildPlanList(n, withParent).Success?
    ensures var l := BuildPlanList(n, withParent).value;
      forall i :: 0 <= i < |l| && l[i].Scan? ==> i == 0 && l[i] == Terminal(n)
  {
    BuildPlanListSpec(n, withParent);
    VisitedScanIsTerminal(n, withParent);
  }
}
