/** Queries on an accepted graph: descendants, depth, and the verification plan
    that is ordered by them. */
module Traversal {
  import opened Options
  import opened Sequences
  import opened PipelineGraph

  // ------------------------------------------------------------ descendants

  lemma ChildDescends(g: Graph, a: Id, b: Id)
    requires b in g.Children(a)
    ensures Descends(g, a, b)
  {
    assert PathBetween(g, [a, b], a, b);
  }

  lemma DescendsOn(g: Graph, a: Id, b: Id, c: Id)
    requires Descends(g, a, b) && c in g.Children(b)
    ensures Descends(g, a, c)
  {
    var p :| PathBetween(g, p, a, b);
    assert PathBetween(g, p + [c], a, c);
  }

  lemma DescendsTransitive(g: Graph, a: Id, b: Id, c: Id)
    requires Descends(g, a, b) && Descends(g, b, c)
    ensures Descends(g, a, c)
  {
    var p :| PathBetween(g, p, a, b);
    var q :| PathBetween(g, q, b, c);
    assert PathBetween(g, p + q[1..], a, c);
  }

  /** A set that holds the children of `a` and of its own members holds every
      descendant of `a`. */
  lemma {:induction false} ClosedHoldsPath(g: Graph, a: Id, s: set<Id>, p: seq<Id>)
    requires g.Children(a) <= s && forall n :: n in s ==> g.Children(n) <= s
    requires IsPath(g, p) && |p| >= 2 && p[0] == a
    ensures p[|p| - 1] in s
  {
    var q := p[..|p| - 1];
    assert p[|p| - 1] in g.Children(q[|q| - 1]);
    if |q| >= 2 {
      ClosedHoldsPath(g, a, s, q);
    }
  }

  ghost function Descendants(g: Graph, a: Id): set<Id> {
    set b | b in g.stages && Descends(g, a, b)
  }

  ghost predicate Exploring(g: Graph, a: Id, found: set<Id>, stack: seq<Id>) {
    && found <= Descendants(g, a) && Elems(stack) <= Descendants(g, a)
    && g.Children(a) <= found + Elems(stack)
    && forall n :: n in found ==> g.Children(n) <= found + Elems(stack)
  }

  lemma ChildrenAreDescendants(g: Graph, a: Id, n: Id)
    requires Closed(g) && (n == a || n in Descendants(g, a))
    ensures g.Children(n) <= Descendants(g, a)
  {
    forall c | c in g.Children(n) ensures c in Descendants(g, a) {
      if n == a { ChildDescends(g, a, c); } else { DescendsOn(g, a, n, c); }
    }
  }

  lemma ExploredAll(g: Graph, a: Id, found: set<Id>)
    requires Exploring(g, a, found, [])
    ensures found == Descendants(g, a)
  {
    var none: seq<Id> := [];
    assert Elems(none) == {};
    forall b | b in Descendants(g, a) ensures b in found {
      var p :| PathBetween(g, p, a, b);
      ClosedHoldsPath(g, a, found, p);
    }
  }

  /** Taking `node` off the stack and pushing its children keeps the search sound and complete. */
  lemma ExploreNode(g: Graph, a: Id, found: set<Id>, stack: seq<Id>, node: Id, pushed: seq<Id>)
    requires Closed(g) && Exploring(g, a, found, stack + [node])
    requires Elems(pushed) == g.Children(node)
    ensures Exploring(g, a, found + {node}, stack + pushed)
    ensures node in found ==> Exploring(g, a, found, stack)
    ensures node in Descendants(g, a)
  {
    ElemsAppend(stack, node);
    ChildrenAreDescendants(g, a, node);
    assert Elems(stack + pushed) == Elems(stack) + Elems(pushed);
  }

  method FindDescendants(g: Graph, a: Id) returns (found: set<Id>)
    requires Closed(g)
    ensures found == Descendants(g, a)
  {
    found := {};
    var stack := ListSet(g.Children(a));
    ChildrenAreDescendants(g, a, a);
    while stack != []
      invariant Exploring(g, a, found, stack)
      decreases Descendants(g, a) - found, |stack|
    {
      var node, rest := stack[|stack| - 1], stack[..|stack| - 1];
      assert stack == rest + [node];
      var pushed := ListSet(g.Children(node));
      ExploreNode(g, a, found, rest, node, pushed);
      if node in found {
        stack := rest;
      } else {
        found := found + {node};
        stack := rest + pushed;
      }
    }
    ExploredAll(g, a, found);
  }

  method IsUpstream(g: Graph, a: Id, b: Id) returns (up: bool)
    requires Closed(g)
    ensures up <==> b in g.stages && Descends(g, a, b)
  {
    var found := FindDescendants(g, a);
    up := b in found;
  }

  // ------------------------------------------------------------------ depth

  ghost predicate ChainTo(g: Graph, p: seq<Id>, n: Id) {
    IsPath(g, p) && p[|p| - 1] == n
  }

  /** `d` is the number of edges of the longest dependency chain that ends in `n`. */
  ghost predicate IsDepth(g: Graph, n: Id, d: nat) {
    && (exists p :: ChainTo(g, p, n) && |p| == d + 1)
    && (forall p :: ChainTo(g, p, n) ==> |p| <= d + 1)
  }

  lemma DepthUnique(g: Graph, n: Id, d: nat, e: nat)
    requires IsDepth(g, n, d) && IsDepth(g, n, e)
    ensures d == e
  {
    var p :| ChainTo(g, p, n) && |p| == d + 1;
    var q :| ChainTo(g, q, n) && |q| == e + 1;
  }

  /** An upstream stage is strictly shallower. */
  lemma UpstreamIsShallower(g: Graph, a: Id, b: Id, da: nat, db: nat)
    requires Descends(g, a, b) && IsDepth(g, a, da) && IsDepth(g, b, db)
    ensures da < db
  {
    var p :| ChainTo(g, p, a) && |p| == da + 1;
    var q :| PathBetween(g, q, a, b);
    assert ChainTo(g, p + q[1..], b);
  }

  lemma LastEdge(g: Graph, p: seq<Id>, n: Id)
    requires Consistent(g) && ChainTo(g, p, n) && |p| > 1
    ensures n in g.stages && p[|p| - 2] in g.stages[n].dependsOn
  {
    assert n in g.Children(p[|p| - 2]);
  }

  lemma SourceDepth(g: Graph, n: Id)
    requires Consistent(g) && n in g.stages && g.stages[n].dependsOn == []
    ensures IsDepth(g, n, 0)
  {
    assert ChainTo(g, [n], n);
    forall p | ChainTo(g, p, n) ensures |p| <= 1 {
      if |p| > 1 {
        LastEdge(g, p, n);
      }
    }
  }

  /** The depth of a stage is one more than that of its deepest parent. */
  lemma DepthFromParents(g: Graph, n: Id, memo: map<Id, nat>, deepest: Id)
    requires Consistent(g) && n in g.stages && MemoSound(g, memo)
    requires IsDeepest(g.stages[n].dependsOn, memo, deepest)
    ensures IsDepth(g, n, 1 + memo[deepest])
  {
    var p :| ChainTo(g, p, deepest) && |p| == memo[deepest] + 1;
    assert ChainTo(g, p + [n], n);
    forall q | ChainTo(g, q, n) ensures |q| <= memo[deepest] + 2 {
      if |q| > 1 {
        var front := q[..|q| - 1];
        assert n in g.Children(front[|front| - 1]);
        assert ChainTo(g, front, front[|front| - 1]);
      }
    }
  }

  ghost predicate MemoSound(g: Graph, memo: map<Id, nat>) {
    forall n :: n in memo ==> n in g.stages && IsDepth(g, n, memo[n])
  }

  ghost predicate Extends(memo: map<Id, nat>, memo': map<Id, nat>) {
    forall n :: n in memo ==> n in memo' && memo'[n] == memo[n]
  }

  ghost predicate IsDeepest(parents: seq<Id>, memo: map<Id, nat>, deepest: Id) {
    && deepest in parents && deepest in memo
    && forall p :: p in parents ==> p in memo && memo[p] <= memo[deepest]
  }

  lemma DeepestOf(parents: seq<Id>, before: map<Id, nat>, deepest: Id, memo: map<Id, nat>, p: Id)
    requires parents != [] ==> IsDeepest(parents, before, deepest)
    requires Extends(before, memo) && p in memo
    ensures IsDeepest(parents + [p], memo, if parents == [] || memo[p] > memo[deepest] then p else deepest)
  {
    assert forall q :: q in parents + [p] <==> q in parents || q == p;
  }

  /** The recursive visit with its shared memo table; `order` is a witness of acyclicity. */
  method Visit(g: Graph, node: Id, memo0: map<Id, nat>, ghost order: seq<Id>)
    returns (d: nat, memo: map<Id, nat>)
    requires Consistent(g) && IsFullSchedule(g, order) && node in g.stages && node in order
    requires MemoSound(g, memo0)
    ensures MemoSound(g, memo) && Extends(memo0, memo) && node in memo && memo[node] == d
    decreases Pos(order, node), 2
  {
    memo := memo0;
    if node in memo {
      return memo[node], memo;
    }
    if g.stages[node].dependsOn == [] {
      SourceDepth(g, node);
      d := 0;
    } else {
      ghost var deepest;
      d, memo, deepest := VisitParents(g, node, memo0, order);
      DepthFromParents(g, node, memo, deepest);
      d := 1 + d;
    }
    if node in memo {
      DepthUnique(g, node, d, memo[node]);
    }
    memo := memo[node := d];
  }

  lemma ParentGoesFirst(g: Graph, order: seq<Id>, node: Id, i: nat)
    requires Consistent(g) && IsFullSchedule(g, order) && node in g.stages && node in order
    requires i < |g.stages[node].dependsOn|
    ensures var p := g.stages[node].dependsOn[i]; p in g.stages && p in order && Pos(order, p) < Pos(order, node)
  {
    assert g.stages[node].dependsOn[i] in g.stages[node].dependsOn;
    EdgesGoForward(g, order, g.stages[node].dependsOn[i], node);
    assert g.stages[node].dependsOn[i] in Elems(order);
  }

  method VisitParents(g: Graph, node: Id, memo0: map<Id, nat>, ghost order: seq<Id>)
    returns (best: nat, memo: map<Id, nat>, ghost deepest: Id)
    requires Consistent(g) && IsFullSchedule(g, order) && node in g.stages && node in order
    requires MemoSound(g, memo0) && g.stages[node].dependsOn != []
    ensures MemoSound(g, memo) && Extends(memo0, memo)
    ensures IsDeepest(g.stages[node].dependsOn, memo, deepest) && memo[deepest] == best
    decreases Pos(order, node), 1
  {
    var deps := g.stages[node].dependsOn;
    memo, best, deepest := memo0, 0, deps[0];
    for i := 0 to |deps|
      invariant MemoSound(g, memo) && Extends(memo0, memo)
      invariant i > 0 ==> IsDeepest(deps[..i], memo, deepest) && memo[deepest] == best
    {
      best, memo, deepest := VisitParent(g, node, i, best, memo, deepest, order);
    }
    assert deps[..|deps|] == deps;
  }

  /** One turn of the loop over the parents. */
  method VisitParent(g: Graph, node: Id, i: nat, best0: nat, memo0: map<Id, nat>, ghost deepest0: Id,
                     ghost order: seq<Id>)
    returns (best: nat, memo: map<Id, nat>, ghost deepest: Id)
    requires Consistent(g) && IsFullSchedule(g, order) && node in g.stages && node in order
    requires MemoSound(g, memo0) && i < |g.stages[node].dependsOn|
    requires i > 0 ==> IsDeepest(g.stages[node].dependsOn[..i], memo0, deepest0) && memo0[deepest0] == best0
    ensures MemoSound(g, memo) && Extends(memo0, memo)
    ensures IsDeepest(g.stages[node].dependsOn[..i + 1], memo, deepest) && memo[deepest] == best
    decreases Pos(order, node), 0
  {
    var deps := g.stages[node].dependsOn;
    ParentGoesFirst(g, order, node, i);
    var depth;
    depth, memo := Visit(g, deps[i], memo0, order);
    best, deepest := best0, deepest0;
    DeepestOf(deps[..i], memo0, deepest0, memo, deps[i]);
    assert deps[..i + 1] == deps[..i] + [deps[i]];
    if i == 0 || depth > best {
      best, deepest := depth, deps[i];
    }
  }

  /** An unknown stage is a lookup error. */
  method Depth(g: Graph, n: Id) returns (d: Option<nat>)
    requires Valid(g)
    ensures d.Some? <==> n in g.stages
    ensures d.Some? ==> IsDepth(g, n, d.value)
  {
    if n !in g.stages {
      return None;
    }
    SchedulableIff(g);
    ghost var order :| IsFullSchedule(g, order);
    assert n in Elems(order);
    var depth, memo := Visit(g, n, map[], order);
    d := Some(depth);
  }

  // ------------------------------------------------------ verification plan

  datatype Step = Targeted(stage: Id) | FullPipeline

  datatype PlanResult = Plan(steps: seq<Step>) | UnknownStage(stage: Id)

  /** `list` enumerates `s` without repeats, no stage after one it is upstream of. */
  ghost predicate TopologicalListing(g: Graph, list: seq<Id>, s: set<Id>) {
    && NoDup(list) && Elems(list) == s
    && forall i, j :: 0 <= i < j < |list| ==> !Descends(g, list[j], list[i])
  }

  ghost predicate DepthSorted(g: Graph, list: seq<Id>, depths: map<Id, nat>) {
    && (forall n :: n in list ==> n in depths)
    && forall i, j :: 0 <= i < j < |list| ==> depths[list[i]] <= depths[list[j]]
  }

  method Shallowest(s: set<Id>, depths: map<Id, nat>) returns (m: Id)
    requires s != {} && s <= depths.Keys
    ensures m in s && forall n :: n in s ==> depths[m] <= depths[n]
  {
    m :| m in s;
    var rest := s - {m};
    while rest != {}
      invariant rest <= s && m in s
      invariant forall n :: n in s - rest ==> depths[m] <= depths[n]
    {
      var n :| n in rest;
      if depths[n] < depths[m] {
        m := n;
      }
      rest := rest - {n};
    }
  }

  method SortByDepth(g: Graph, s: set<Id>) returns (list: seq<Id>)
    requires Valid(g) && s <= g.stages.Keys
    ensures TopologicalListing(g, list, s)
  {
    var depths := AllDepths(g, s);
    list := [];
    var rest := s;
    while rest != {}
      invariant rest <= s && NoDup(list) && Elems(list) == s - rest
      invariant DepthSorted(g, list, depths)
      invariant forall n, m :: n in list && m in rest ==> depths[n] <= depths[m]
    {
      var m := Shallowest(rest, depths);
      ElemsAppend(list, m);
      rest := rest - {m};
      list := list + [m];
    }
    forall i, j | 0 <= i < j < |list| ensures !Descends(g, list[j], list[i]) {
      assert list[i] in Elems(list) && list[j] in Elems(list);
      if Descends(g, list[j], list[i]) {
        UpstreamIsShallower(g, list[j], list[i], depths[list[j]], depths[list[i]]);
      }
    }
  }

  method AllDepths(g: Graph, s: set<Id>) returns (depths: map<Id, nat>)
    requires Valid(g) && s <= g.stages.Keys
    ensures depths.Keys == s && forall n :: n in s ==> IsDepth(g, n, depths[n])
  {
    depths := map[];
    var rest := s;
    while rest != {}
      invariant rest <= s && depths.Keys == s - rest
      invariant forall n :: n in depths ==> IsDepth(g, n, depths[n])
    {
      var n :| n in rest;
      var d := Depth(g, n);
      depths := depths[n := d.value];
      rest := rest - {n};
    }
  }

  /** Root first, then every failed descendant of the root exactly once and never
      ahead of a failed stage upstream of it, then the whole pipeline. */
  method PlanVerification(g: Graph, root: Id, failed: set<Id>) returns (r: PlanResult, ghost middle: seq<Id>)
    requires Valid(g)
    ensures r.UnknownStage? <==> root !in g.stages
    ensures r.Plan? ==>
      && |r.steps| == |middle| + 2
      && r.steps[0] == Targeted(root) && r.steps[|r.steps| - 1] == FullPipeline
      && (forall i :: 0 <= i < |middle| ==> r.steps[i + 1] == Targeted(middle[i]))
      && TopologicalListing(g, middle, Descendants(g, root) * failed)
      && root !in middle
  {
    middle := [];
    if root !in g.stages {
      return UnknownStage(root), middle;
    }
    var found := FindDescendants(g, root);
    var impacted := SortByDepth(g, found * failed);
    middle := impacted;
    var steps := [Targeted(root)];
    for i := 0 to |impacted|
      invariant |steps| == i + 1 && steps[0] == Targeted(root)
      invariant forall k :: 0 <= k < i ==> steps[k + 1] == Targeted(impacted[k])
    {
      steps := steps + [Targeted(impacted[i])];
    }
    if root in middle {
      assert root in Elems(middle);
      var p :| PathBetween(g, p, root, root);
      assert IsCycle(g, p);
    }
    r := Plan(steps + [FullPipeline]);
  }
}
