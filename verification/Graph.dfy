/** The stage graph of a pipeline: construction, the queue-based acyclicity
    check, the worklist of descendants and the memoised depth. */
module PipelineGraph {
  import opened Options
  import opened Sequences

  /** Stage names; only their equality matters. */
  type Id(==, !new)

  datatype Stage = Stage(id: Id, dependsOn: seq<Id>, criticality: real)

  /** `children` has an entry only for stages that some stage depends on. */
  datatype Graph = Graph(stages: map<Id, Stage>, children: map<Id, set<Id>>) {
    function Children(p: Id): (c: set<Id>) {
      if p in children then children[p] else {}
    }
  }

  datatype BuildError = UnknownDependency(parent: Id, stage: Id) | DependencyCycle

  datatype BuildResult = Built(graph: Graph) | Rejected(error: BuildError)

  // ---------------------------------------------------------------- meaning

  /** The id table: a later declaration of an id replaces an earlier one. */
  function Table(stages: seq<Stage>): map<Id, Stage> {
    if stages == [] then map[]
    else Table(stages[..|stages| - 1])[stages[|stages| - 1].id := stages[|stages| - 1]]
  }

  /** The child relation is filled from every declaration, replaced ones included. */
  ghost function DeclaredChildren(stages: seq<Stage>, p: Id): set<Id> {
    set s | s in stages && p in s.dependsOn :: s.id
  }

  ghost function GraphOf(stages: seq<Stage>): Graph {
    var table := Table(stages);
    Graph(table, map p | p in table && DeclaredChildren(stages, p) != {} :: DeclaredChildren(stages, p))
  }

  ghost predicate KnownParents(stages: seq<Stage>) {
    forall s, p :: s in stages && p in s.dependsOn ==> p in Table(stages)
  }

  ghost predicate DistinctIds(stages: seq<Stage>) {
    forall i, j :: 0 <= i < j < |stages| ==> stages[i].id != stages[j].id
  }

  ghost predicate RepeatFree(g: Graph) {
    forall n :: n in g.stages ==> NoDup(g.stages[n].dependsOn)
  }

  /** Child edges stay inside the table. */
  ghost predicate Closed(g: Graph) {
    forall p :: p in g.children ==> p in g.stages && g.children[p] <= g.stages.Keys
  }

  /** The child relation is the inverse of the dependency lists in the table. */
  ghost predicate Consistent(g: Graph) {
    && Closed(g)
    && (forall n, p :: n in g.stages && p in g.stages[n].dependsOn ==> p in g.stages)
    && (forall p, n :: n in g.Children(p) <==> n in g.stages && p in g.stages[n].dependsOn)
  }

  /** A walk along child edges, listed from the upstream end. */
  ghost predicate IsPath(g: Graph, p: seq<Id>) {
    |p| >= 1 && forall i, j :: 0 <= i < j == i + 1 < |p| ==> p[j] in g.Children(p[i])
  }

  ghost predicate IsCycle(g: Graph, p: seq<Id>) {
    IsPath(g, p) && |p| >= 2 && p[0] == p[|p| - 1]
  }

  ghost predicate Acyclic(g: Graph) {
    forall p :: !IsCycle(g, p)
  }

  ghost predicate PathBetween(g: Graph, p: seq<Id>, a: Id, b: Id) {
    IsPath(g, p) && |p| >= 2 && p[0] == a && p[|p| - 1] == b
  }

  /** `b` is reachable from `a` by one or more edges. */
  ghost predicate Descends(g: Graph, a: Id, b: Id) {
    exists p :: PathBetween(g, p, a, b)
  }

  /** What every graph accepted from distinctly named stages satisfies. */
  ghost predicate Valid(g: Graph) {
    Consistent(g) && Acyclic(g) && RepeatFree(g)
  }

  // -------------------------------------------------------------- schedules

  ghost function Parents(g: Graph, n: Id): set<Id> {
    set p | p in g.stages && n in g.Children(p)
  }

  /** `n` has as many released parents as its dependency list is long. */
  ghost predicate Ready(g: Graph, n: Id, released: set<Id>)
    requires n in g.stages
  {
    |g.stages[n].dependsOn| <= |Parents(g, n) * released|
  }

  /** An order in which the queue can release stages, one at a time. */
  ghost predicate IsSchedule(g: Graph, order: seq<Id>) {
    order == [] ||
    var n, before := order[|order| - 1], order[..|order| - 1];
    IsSchedule(g, before) && n in g.stages && n !in before && Ready(g, n, Elems(before))
  }

  ghost predicate IsFullSchedule(g: Graph, order: seq<Id>) {
    IsSchedule(g, order) && Elems(order) == g.stages.Keys
  }

  ghost predicate Schedulable(g: Graph) {
    exists order :: IsFullSchedule(g, order)
  }

  /** No stage outside `order` can be released any more. */
  ghost predicate Stuck(g: Graph, order: seq<Id>) {
    forall n :: n in g.stages && n !in order ==> !Ready(g, n, Elems(order))
  }

  lemma ReadyMonotone(g: Graph, n: Id, a: set<Id>, b: set<Id>)
    requires n in g.stages && a <= b && Ready(g, n, a)
    ensures Ready(g, n, b)
  {
    CardSubset(Parents(g, n) * a, Parents(g, n) * b);
  }

  lemma {:induction false} ScheduleFacts(g: Graph, order: seq<Id>)
    requires IsSchedule(g, order)
    ensures NoDup(order) && Elems(order) <= g.stages.Keys
  {
    if order != [] {
      var before, n := order[..|order| - 1], order[|order| - 1];
      ScheduleFacts(g, before);
      assert order == before + [n];
      ElemsAppend(before, n);
    }
  }

  lemma {:induction false} SchedulePrefix(g: Graph, order: seq<Id>, i: nat)
    requires IsSchedule(g, order) && i <= |order|
    ensures IsSchedule(g, order[..i])
  {
    if i < |order| {
      SchedulePrefix(g, order[..|order| - 1], i);
      assert order[..|order| - 1][..i] == order[..i];
    } else {
      assert order[..i] == order;
    }
  }

  lemma ScheduleAppend(g: Graph, order: seq<Id>, n: Id)
    requires IsSchedule(g, order) && n in g.stages && n !in order && Ready(g, n, Elems(order))
    ensures IsSchedule(g, order + [n])
  {
    assert (order + [n])[..|order|] == order;
  }

  /** What held when the stage at position `i` was released. */
  lemma ReleasedWhenReady(g: Graph, order: seq<Id>, i: nat)
    requires IsSchedule(g, order) && i < |order|
    ensures order[i] in g.stages && Ready(g, order[i], Elems(order[..i]))
  {
    SchedulePrefix(g, order, i + 1);
    assert order[..i + 1][..i] == order[..i];
  }

  /** A stuck schedule has released everything any schedule can release, so
      which ready stage the queue pops first does not matter. */
  lemma {:induction false} StuckIsMaximal(g: Graph, stuck: seq<Id>, order: seq<Id>)
    requires Stuck(g, stuck) && IsSchedule(g, order)
    ensures Elems(order) <= Elems(stuck)
  {
    if order != [] {
      var n, before := order[|order| - 1], order[..|order| - 1];
      StuckIsMaximal(g, stuck, before);
      ReadyMonotone(g, n, Elems(before), Elems(stuck));
      assert n in stuck;
      assert order == before + [n];
      ElemsAppend(before, n);
    }
  }

  lemma {:induction false} ExtendToStuck(g: Graph, order: seq<Id>) returns (full: seq<Id>)
    requires IsSchedule(g, order)
    ensures IsSchedule(g, full) && Stuck(g, full)
    decreases g.stages.Keys - Elems(order)
  {
    full := order;
    if !Stuck(g, order) {
      var n :| n in g.stages && n !in order && Ready(g, n, Elems(order));
      ScheduleAppend(g, order, n);
      ElemsAppend(order, n);
      full := ExtendToStuck(g, order + [n]);
    }
  }

  // ------------------------------------------- schedules, ranks and cycles

  lemma ParentsAreDependencies(g: Graph, n: Id)
    requires Consistent(g) && n in g.stages
    ensures Parents(g, n) == Elems(g.stages[n].dependsOn)
  {
    forall p ensures p in Parents(g, n) <==> p in g.stages[n].dependsOn {
    }
  }

  /** In a consistent graph a stage is released only when its list is free of
      repeats and all its parents went before. */
  lemma ReadyIff(g: Graph, n: Id, released: set<Id>)
    requires Consistent(g) && n in g.stages
    ensures Ready(g, n, released) <==> NoDup(g.stages[n].dependsOn) && Parents(g, n) <= released
  {
    var deps := g.stages[n].dependsOn;
    ParentsAreDependencies(g, n);
    CardElems(deps);
    CardSubset(Parents(g, n) * released, Parents(g, n));
    if Parents(g, n) <= released {
      assert Parents(g, n) * released == Parents(g, n);
    }
  }

  ghost function Pos(order: seq<Id>, n: Id): (i: nat)
    requires n in order
    ensures i < |order| && order[i] == n
  {
    var i :| 0 <= i < |order| && order[i] == n; i
  }

  /** Positions in a full schedule form a topological rank. */
  lemma EdgesGoForward(g: Graph, order: seq<Id>, p: Id, n: Id)
    requires Consistent(g) && IsFullSchedule(g, order)
    requires n in g.Children(p)
    ensures p in order && n in order && Pos(order, p) < Pos(order, n)
  {
    assert n in Elems(order);
    var i := Pos(order, n);
    ReleasedWhenReady(g, order, i);
    ReadyIff(g, n, Elems(order[..i]));
    assert p in Parents(g, n) && p in order[..i];
    ScheduleFacts(g, order);
  }

  lemma {:induction false} PathsGoForward(g: Graph, order: seq<Id>, p: seq<Id>)
    requires Consistent(g) && IsFullSchedule(g, order)
    requires IsPath(g, p) && |p| >= 2
    ensures p[0] in order && p[|p| - 1] in order && Pos(order, p[0]) < Pos(order, p[|p| - 1])
  {
    EdgesGoForward(g, order, p[0], p[1]);
    if |p| > 2 {
      PathsGoForward(g, order, p[1..]);
    }
  }

  lemma PathPrepend(g: Graph, p: Id, path: seq<Id>)
    requires IsPath(g, path) && path[0] in g.Children(p)
    ensures IsPath(g, [p] + path)
  {
    var longer := [p] + path;
    forall i, j | 0 <= i < j == i + 1 < |longer| ensures longer[j] in g.Children(longer[i]) {
      assert longer[j] == path[i] && (i > 0 ==> longer[i] == path[i - 1]);
    }
  }

  /** Every stage of `left` has a parent in `left`. */
  ghost predicate NoSource(g: Graph, left: set<Id>) {
    forall n :: n in left ==> HasParentIn(g, left, n)
  }

  ghost predicate HasParentIn(g: Graph, left: set<Id>, n: Id) {
    exists p :: p in left && n in g.Children(p)
  }

  /** Walking upstream inside a finite set without a source must close a cycle. */
  lemma {:induction false} WalkUpstream(g: Graph, left: set<Id>, path: seq<Id>) returns (cycle: seq<Id>)
    requires NoSource(g, left) && IsPath(g, path) && NoDup(path) && Elems(path) <= left
    ensures IsCycle(g, cycle) && Elems(cycle) <= left
    decreases |left| - |path|
  {
    assert path[0] in Elems(path);
    assert HasParentIn(g, left, path[0]);
    var p :| p in left && path[0] in g.Children(p);
    if p in path {
      cycle := CloseCycle(g, p, path);
    } else {
      PathPrepend(g, p, path);
      LongerStillInside(left, p, path);
      cycle := WalkUpstream(g, left, [p] + path);
    }
  }

  lemma LongerStillInside(left: set<Id>, p: Id, path: seq<Id>)
    requires NoDup(path) && Elems(path) <= left && p in left && p !in path
    ensures NoDup([p] + path) && Elems([p] + path) <= left && |path| < |left|
  {
    CardElems([p] + path);
    CardSubset(Elems([p] + path), left);
  }

  lemma CloseCycle(g: Graph, p: Id, path: seq<Id>) returns (cycle: seq<Id>)
    requires IsPath(g, path) && path[0] in g.Children(p) && p in path
    ensures IsCycle(g, cycle) && Elems(cycle) <= Elems(path)
  {
    var j :| 0 <= j < |path| && path[j] == p;
    var part := path[..j + 1];
    assert part[0] == path[0] && part[j] == p;
    assert IsPath(g, part);
    PathPrepend(g, p, part);
    cycle := [p] + part;
  }

  lemma LeftoverHasNoSource(g: Graph, order: seq<Id>)
    requires Consistent(g) && RepeatFree(g) && Stuck(g, order)
    ensures NoSource(g, g.stages.Keys - Elems(order))
  {
    var left := g.stages.Keys - Elems(order);
    forall n | n in left ensures HasParentIn(g, left, n) {
      UnreadyHasParent(g, order, n);
    }
  }

  /** Whatever the queue leaves behind contains a cycle. */
  lemma LeftoverHasCycle(g: Graph, order: seq<Id>) returns (cycle: seq<Id>)
    requires Consistent(g) && RepeatFree(g) && Stuck(g, order)
    requires g.stages.Keys - Elems(order) != {}
    ensures IsCycle(g, cycle) && Elems(cycle) <= g.stages.Keys - Elems(order)
  {
    LeftoverHasNoSource(g, order);
    cycle := NoSourceHasCycle(g, g.stages.Keys - Elems(order));
  }

  lemma NoSourceHasCycle(g: Graph, left: set<Id>) returns (cycle: seq<Id>)
    requires NoSource(g, left) && left != {}
    ensures IsCycle(g, cycle) && Elems(cycle) <= left
  {
    var n :| n in left;
    assert Elems([n]) == {n};
    cycle := WalkUpstream(g, left, [n]);
  }

  lemma UnreadyHasParent(g: Graph, order: seq<Id>, n: Id)
    requires Consistent(g) && RepeatFree(g) && n in g.stages
    requires !Ready(g, n, Elems(order))
    ensures HasParentIn(g, g.stages.Keys - Elems(order), n)
  {
    ReadyIff(g, n, Elems(order));
    var p :| p in Parents(g, n) && p !in Elems(order);
    assert p in g.stages.Keys - Elems(order) && n in g.Children(p);
  }

  /** For a consistent graph the check is exact: a full schedule exists if and
      only if there is no cycle and no dependency list repeats an entry. */
  lemma SchedulableIff(g: Graph)
    requires Consistent(g)
    ensures Schedulable(g) <==> Acyclic(g) && RepeatFree(g)
  {
    if Schedulable(g) {
      var order :| IsFullSchedule(g, order);
      forall p ensures !IsCycle(g, p) {
        if IsCycle(g, p) {
          PathsGoForward(g, order, p);
        }
      }
      forall n | n in g.stages ensures NoDup(g.stages[n].dependsOn) {
        assert n in Elems(order);
        var i := Pos(order, n);
        ReleasedWhenReady(g, order, i);
        ReadyIff(g, n, Elems(order[..i]));
      }
    } else if Acyclic(g) && RepeatFree(g) {
      var order := ExtendToStuck(g, []);
      ScheduleFacts(g, order);
      assert !IsFullSchedule(g, order);
      assert g.stages.Keys - Elems(order) != {};
      var cycle := LeftoverHasCycle(g, order);
      assert false;
    }
  }

  // --------------------------------------------- lists with repeated names

  /** Every stage of `s` waits for more parents than it has outside of `s`. */
  ghost predicate Blocked(g: Graph, s: set<Id>) {
    s != {} && s <= g.stages.Keys && forall n :: n in s ==> LacksParents(g, n, s)
  }

  ghost predicate LacksParents(g: Graph, n: Id, s: set<Id>)
    requires n in g.stages
  {
    |g.stages[n].dependsOn| > |Parents(g, n) - s|
  }

  /** The first stage of `s` that a full schedule releases has its parents outside of `s`. */
  lemma {:induction false} FirstReleased(g: Graph, order: seq<Id>, s: set<Id>) returns (n: Id)
    requires IsSchedule(g, order) && Elems(order) * s != {}
    ensures n in s && n in g.stages && !LacksParents(g, n, s)
  {
    var before, last := order[..|order| - 1], order[|order| - 1];
    if Elems(before) * s != {} {
      n := FirstReleased(g, before, s);
    } else {
      n := last;
      assert order == before + [last];
      ElemsAppend(before, last);
      assert Elems(order) * s == {last} * s;
      OutsideSuffices(g, n, Elems(before), s);
    }
  }

  lemma OutsideSuffices(g: Graph, n: Id, released: set<Id>, s: set<Id>)
    requires n in g.stages && Ready(g, n, released) && released !! s
    ensures !LacksParents(g, n, s)
  {
    CardSubset(Parents(g, n) * released, Parents(g, n) - s);
  }

  /** For every closed graph, whatever its lists repeat or redeclare: a full schedule exists
      if and only if no set of stages is blocked. */
  lemma SchedulableUnlessBlocked(g: Graph)
    requires Closed(g)
    ensures Schedulable(g) <==> forall s :: !Blocked(g, s)
  {
    if Schedulable(g) {
      forall s ensures !Blocked(g, s) {
        ScheduleUnblocks(g, s);
      }
    } else {
      var order := ExtendToStuck(g, []);
      ScheduleFacts(g, order);
      assert !IsFullSchedule(g, order);
      StuckLeavesBlocked(g, order);
    }
  }

  lemma ScheduleUnblocks(g: Graph, s: set<Id>)
    requires Schedulable(g)
    ensures !Blocked(g, s)
  {
    var order :| IsFullSchedule(g, order);
    if s != {} && s <= g.stages.Keys {
      assert Elems(order) * s == s;
      var n := FirstReleased(g, order, s);
    }
  }

  lemma StuckLeavesBlocked(g: Graph, order: seq<Id>)
    requires Closed(g) && Stuck(g, order) && Elems(order) < g.stages.Keys
    ensures Blocked(g, g.stages.Keys - Elems(order))
  {
    var left := g.stages.Keys - Elems(order);
    forall n | n in left ensures LacksParents(g, n, left) {
      assert Parents(g, n) - left == Parents(g, n) * Elems(order);
      assert !Ready(g, n, Elems(order));
    }
  }

  /** Every list is as short as the number of different stages that declare its stage a child. */
  ghost predicate ListsCovered(g: Graph) {
    forall n :: n in g.stages ==> |g.stages[n].dependsOn| <= |Parents(g, n)|
  }

  /** On a graph without cycles the check is right if and only if all lists are covered. */
  lemma AcyclicIsAcceptedIff(g: Graph)
    requires Closed(g) && Acyclic(g)
    ensures Schedulable(g) <==> ListsCovered(g)
  {
    if Schedulable(g) {
      ScheduleCoversLists(g);
    } else if ListsCovered(g) {
      UnscheduledHasCycle(g);
    }
  }

  lemma UnscheduledHasCycle(g: Graph)
    requires Closed(g) && ListsCovered(g) && !Schedulable(g)
    ensures !Acyclic(g)
  {
    var order := ExtendToStuck(g, []);
    ScheduleFacts(g, order);
    assert !IsFullSchedule(g, order);
    CoveredLeavesNoSource(g, order);
    var cycle := NoSourceHasCycle(g, g.stages.Keys - Elems(order));
    assert IsCycle(g, cycle);
  }

  lemma ScheduleCoversLists(g: Graph)
    requires Schedulable(g)
    ensures ListsCovered(g)
  {
    var order :| IsFullSchedule(g, order);
    forall n | n in g.stages ensures |g.stages[n].dependsOn| <= |Parents(g, n)| {
      assert n in Elems(order);
      var i := Pos(order, n);
      ReleasedWhenReady(g, order, i);
      CardSubset(Parents(g, n) * Elems(order[..i]), Parents(g, n));
    }
  }

  lemma CoveredLeavesNoSource(g: Graph, order: seq<Id>)
    requires Closed(g) && ListsCovered(g) && Stuck(g, order)
    ensures NoSource(g, g.stages.Keys - Elems(order))
  {
    var left := g.stages.Keys - Elems(order);
    forall n | n in left ensures HasParentIn(g, left, n) {
      CoveredHasParent(g, order, n);
    }
  }

  lemma CoveredHasParent(g: Graph, order: seq<Id>, n: Id)
    requires Closed(g) && n in g.stages && !Ready(g, n, Elems(order)) && |g.stages[n].dependsOn| <= |Parents(g, n)|
    ensures HasParentIn(g, g.stages.Keys - Elems(order), n)
  {
    assert Parents(g, n) <= Elems(order) ==> Parents(g, n) * Elems(order) == Parents(g, n);
    var p :| p in Parents(g, n) && p !in Elems(order);
    assert p in g.stages.Keys - Elems(order) && n in g.Children(p);
  }

  /** The surviving list of `n` is shorter than the number of stages that declare it a child. */
  ghost predicate ListTooShort(g: Graph, n: Id) {
    n in g.stages && |g.stages[n].dependsOn| < |Parents(g, n)|
  }

  /** A cycle that the check accepts passes through a stage whose list is too short. */
  lemma AcceptedCycleHasShortList(g: Graph, p: seq<Id>)
    requires Closed(g) && Schedulable(g) && IsCycle(g, p)
    ensures exists i :: 0 < i < |p| && ListTooShort(g, p[i])
  {
    var order :| IsFullSchedule(g, order);
    if forall i :: 0 < i < |p| ==> !ListTooShort(g, p[i]) {
      LongListsGoForward(g, order, p);
      assert false;
    }
  }

  lemma {:induction false} LongListsGoForward(g: Graph, order: seq<Id>, p: seq<Id>)
    requires Closed(g) && IsFullSchedule(g, order) && IsPath(g, p) && |p| >= 2
    requires forall i :: 0 < i < |p| ==> !ListTooShort(g, p[i])
    ensures p[0] in order && p[|p| - 1] in order && Pos(order, p[0]) < Pos(order, p[|p| - 1])
  {
    LongListGoesForward(g, order, p[0], p[1]);
    if |p| > 2 {
      LongListsGoForward(g, order, p[1..]);
    }
  }

  lemma LongListGoesForward(g: Graph, order: seq<Id>, p: Id, n: Id)
    requires Closed(g) && IsFullSchedule(g, order) && n in g.Children(p) && !ListTooShort(g, n)
    ensures p in order && n in order && Pos(order, p) < Pos(order, n)
  {
    assert n in Elems(order);
    var i := Pos(order, n);
    ReleasedWhenReady(g, order, i);
    var before := Elems(order[..i]);
    CardSubset(Parents(g, n) * before, Parents(g, n));
    assert Parents(g, n) * before == Parents(g, n);
    assert p in Parents(g, n) && p in order[..i];
    ScheduleFacts(g, order);
  }

  lemma {:induction false} TableFacts(stages: seq<Stage>)
    ensures forall s :: s in stages ==> s.id in Table(stages)
    ensures forall n :: n in Table(stages) ==> Table(stages)[n] in stages && Table(stages)[n].id == n
    ensures DistinctIds(stages) ==> forall s :: s in stages ==> Table(stages)[s.id] == s
  {
    if stages != [] {
      var before, last := stages[..|stages| - 1], stages[|stages| - 1];
      TableFacts(before);
      assert stages == before + [last];
      assert Table(stages) == Table(before)[last.id := last];
      assert forall s :: s in stages <==> s in before || s == last;
      if DistinctIds(stages) {
        DistinctFront(before, last);
      }
    }
  }

  lemma DistinctFront(before: seq<Stage>, last: Stage)
    requires DistinctIds(before + [last])
    ensures DistinctIds(before) && forall s :: s in before ==> s.id != last.id
  {
    var all := before + [last];
    assert forall i :: 0 <= i < |before| ==> all[i] == before[i];
    assert all[|before|] == last;
  }

  lemma GraphOfClosed(stages: seq<Stage>)
    ensures Closed(GraphOf(stages))
  {
    TableFacts(stages);
  }

  lemma GraphOfConsistent(stages: seq<Stage>)
    requires DistinctIds(stages) && KnownParents(stages)
    ensures Consistent(GraphOf(stages))
  {
    var g := GraphOf(stages);
    TableFacts(stages);
    forall p, n ensures n in g.Children(p) <==> n in g.stages && p in g.stages[n].dependsOn {
      assert g.Children(p) == if p in g.stages then DeclaredChildren(stages, p) else {};
      if n in g.stages && p in g.stages[n].dependsOn {
        assert g.stages[n] in stages;
      }
    }
  }

  // ------------------------------------------------------------- algorithms

  method ListSet<T(==)>(s: set<T>) returns (list: seq<T>)
    ensures Elems(list) == s && NoDup(list)
  {
    list := [];
    var rest := s;
    while rest != {}
      invariant rest <= s && Elems(list) == s - rest && NoDup(list)
    {
      var x :| x in rest;
      rest := rest - {x};
      ElemsAppend(list, x);
      list := list + [x];
    }
  }

  method CountDependencies(g: Graph) returns (indegree: map<Id, int>)
    requires forall n :: n in g.stages ==> g.stages[n].id == n
    ensures indegree.Keys == g.stages.Keys
    ensures forall n :: n in g.stages ==> indegree[n] == |g.stages[n].dependsOn|
  {
    indegree := map n | n in g.stages :: 0;
    var rest := g.stages.Keys;
    while rest != {}
      invariant rest <= g.stages.Keys == indegree.Keys
      invariant forall n :: n in g.stages ==> indegree[n] == if n in rest then 0 else |g.stages[n].dependsOn|
    {
      var n :| n in rest;
      var stage := g.stages[n];
      for i := 0 to |stage.dependsOn|
        invariant indegree.Keys == g.stages.Keys
        invariant forall m :: m in g.stages ==>
          indegree[m] == if m == n then i else if m in rest then 0 else |g.stages[m].dependsOn|
      {
        indegree := indegree[stage.id := indegree[stage.id] + 1];
      }
      rest := rest - {n};
    }
  }

  /** The relation between the counters, the queue and the released stages. */
  ghost predicate QueueInv(g: Graph, indegree: map<Id, int>, released: set<Id>, queue: seq<Id>) {
    && indegree.Keys == g.stages.Keys
    && Counted(g, indegree, released)
    && Queued(g, indegree, released, queue)
  }

  /** Each counter is the length of the dependency list less the released parents. */
  ghost predicate Counted(g: Graph, indegree: map<Id, int>, released: set<Id>)
    requires indegree.Keys == g.stages.Keys
  {
    forall n :: n in g.stages ==> indegree[n] == |g.stages[n].dependsOn| - |Parents(g, n) * released|
  }

  /** Exactly the stages whose counter ran out are released or waiting. */
  ghost predicate Queued(g: Graph, indegree: map<Id, int>, released: set<Id>, queue: seq<Id>)
    requires indegree.Keys == g.stages.Keys
  {
    && NoDup(queue) && Elems(queue) !! released && released + Elems(queue) <= g.stages.Keys
    && forall n :: n in g.stages ==> (n in released || n in queue <==> indegree[n] <= 0)
  }

  lemma ReleaseOne(g: Graph, released: set<Id>, current: Id, n: Id)
    requires current in g.stages && current !in released
    ensures |Parents(g, n) * (released + {current})|
         == |Parents(g, n) * released| + if n in g.Children(current) then 1 else 0
  {
    var before, now := Parents(g, n) * released, Parents(g, n) * (released + {current});
    if n in g.Children(current) {
      assert now == before + {current};
    } else {
      assert now == before;
    }
  }

  /** Decrement the counters of the children of the stage just popped and
      queue those that reach zero. */
  method ReleaseChildren(g: Graph, current: Id, indegree0: map<Id, int>, ghost released: set<Id>, queue0: seq<Id>)
    returns (indegree: map<Id, int>, queue: seq<Id>)
    requires Closed(g) && indegree0.Keys == g.stages.Keys
    requires Queued(g, indegree0, released, queue0)
    ensures indegree.Keys == g.stages.Keys
    ensures Queued(g, indegree, released, queue)
    ensures forall n :: n in g.stages ==> indegree[n] == indegree0[n] - if n in g.Children(current) then 1 else 0
  {
    indegree, queue := indegree0, queue0;
    var rest := g.Children(current);
    while rest != {}
      invariant rest <= g.Children(current) <= g.stages.Keys == indegree.Keys
      invariant Queued(g, indegree, released, queue)
      invariant forall n :: n in g.stages ==>
        indegree[n] == indegree0[n] - if n in g.Children(current) && n !in rest then 1 else 0
    {
      var child :| child in rest;
      rest := rest - {child};
      ghost var before := indegree;
      indegree := indegree[child := indegree[child] - 1];
      assert forall n :: n in g.stages && n != child ==> indegree[n] == before[n];
      if indegree[child] == 0 {
        ElemsAppend(queue, child);
        queue := queue + [child];
      }
    }
  }

  lemma FrontAndRest(queue: seq<Id>)
    requires queue != [] && NoDup(queue)
    ensures NoDup(queue[1..]) && queue[0] !in queue[1..] && Elems(queue) == Elems(queue[1..]) + {queue[0]}
  {
    assert queue == [queue[0]] + queue[1..];
  }

  lemma StartQueue(g: Graph, indegree: map<Id, int>, queue: seq<Id>)
    requires indegree.Keys == g.stages.Keys && forall n :: n in g.stages ==> indegree[n] == |g.stages[n].dependsOn|
    requires NoDup(queue) && Elems(queue) == set n | n in g.stages && indegree[n] == 0
    ensures QueueInv(g, indegree, Elems([]), queue)
  {
    forall n | n in g.stages ensures |Parents(g, n) * Elems([])| == 0 {
      assert Parents(g, n) * Elems([]) == {};
    }
    assert forall n :: n in queue <==> n in Elems(queue);
  }

  /** Popping the front of the queue releases it and updates its children. */
  lemma AfterRelease(g: Graph, indegree0: map<Id, int>, indegree: map<Id, int>, released: set<Id>, current: Id)
    requires indegree0.Keys == indegree.Keys == g.stages.Keys && current in g.stages && current !in released
    requires Counted(g, indegree0, released)
    requires forall n :: n in g.stages ==> indegree[n] == indegree0[n] - if n in g.Children(current) then 1 else 0
    ensures Counted(g, indegree, released + {current})
  {
    forall n | n in g.stages
      ensures indegree[n] == |g.stages[n].dependsOn| - |Parents(g, n) * (released + {current})|
    {
      ReleaseOne(g, released, current, n);
    }
  }

  lemma FrontIsReady(g: Graph, indegree: map<Id, int>, queue: seq<Id>, released: set<Id>)
    requires QueueInv(g, indegree, released, queue) && queue != []
    ensures queue[0] in g.stages && queue[0] !in released && Ready(g, queue[0], released)
    ensures Queued(g, indegree, released + {queue[0]}, queue[1..])
  {
    FrontAndRest(queue);
    assert queue[0] in Elems(queue);
  }

  method PopFront(g: Graph, indegree0: map<Id, int>, queue0: seq<Id>, ghost released0: seq<Id>)
    returns (indegree: map<Id, int>, queue: seq<Id>, ghost released: seq<Id>)
    requires Closed(g) && QueueInv(g, indegree0, Elems(released0), queue0) && queue0 != []
    requires IsSchedule(g, released0)
    ensures QueueInv(g, indegree, Elems(released), queue)
    ensures IsSchedule(g, released) && released == released0 + [queue0[0]]
    ensures Elems(released) == Elems(released0) + {queue0[0]}
    ensures queue0[0] in g.stages && queue0[0] !in Elems(released0)
  {
    var current := queue0[0];
    FrontIsReady(g, indegree0, queue0, Elems(released0));
    ElemsAppend(released0, current);
    ScheduleAppend(g, released0, current);
    released := released0 + [current];
    indegree, queue := ReleaseChildren(g, current, indegree0, Elems(released), queue0[1..]);
    AfterRelease(g, indegree0, indegree, Elems(released0), current);
  }

  /** `released` is the ghost record of the stages the queue let go. */
  method ValidateAcyclic(g: Graph) returns (ok: bool, ghost released: seq<Id>)
    requires Closed(g) && forall n :: n in g.stages ==> g.stages[n].id == n
    ensures IsSchedule(g, released) && Stuck(g, released)
    ensures ok <==> Elems(released) == g.stages.Keys
    ensures ok <==> Schedulable(g)
  {
    var indegree := CountDependencies(g);
    var queue := ListSet(set n | n in g.stages && indegree[n] == 0);
    var seen := 0;
    released := [];
    StartQueue(g, indegree, queue);
    while queue != []
      invariant QueueInv(g, indegree, Elems(released), queue)
      invariant IsSchedule(g, released) && seen == |released|
      decreases g.stages.Keys - Elems(released)
    {
      seen := seen + 1;
      indegree, queue, released := PopFront(g, indegree, queue, released);
    }
    AllSeen(g, indegree, released);
    StuckDecides(g, released);
    ok := seen == |g.stages|;
  }

  /** With the queue empty, the number of stages popped tells whether all were. */
  lemma AllSeen(g: Graph, indegree: map<Id, int>, released: seq<Id>)
    requires QueueInv(g, indegree, Elems(released), []) && IsSchedule(g, released)
    ensures Stuck(g, released)
    ensures |released| == |g.stages.Keys| <==> Elems(released) == g.stages.Keys
  {
    ScheduleFacts(g, released);
    CardElems(released);
    CardSubset(Elems(released), g.stages.Keys);
  }

  lemma StuckDecides(g: Graph, released: seq<Id>)
    requires IsSchedule(g, released) && Stuck(g, released)
    ensures Schedulable(g) <==> Elems(released) == g.stages.Keys
  {
    if Elems(released) == g.stages.Keys {
      assert IsFullSchedule(g, released);
    }
    if Schedulable(g) {
      var order :| IsFullSchedule(g, order);
      StuckIsMaximal(g, released, order);
      ScheduleFacts(g, released);
    }
  }

  method Build(stages: seq<Stage>) returns (r: BuildResult)
    ensures r.Built? ==> r.graph == GraphOf(stages)
    ensures r.Rejected? && r.error.UnknownDependency? <==> !KnownParents(stages)
    ensures r.Built? <==> KnownParents(stages) && Schedulable(GraphOf(stages))
    ensures KnownParents(stages) ==> (r.Built? <==> forall s :: !Blocked(GraphOf(stages), s))
    ensures KnownParents(stages) && Acyclic(GraphOf(stages)) ==> (r.Built? <==> ListsCovered(GraphOf(stages)))
    ensures r.Built? && !Acyclic(r.graph) ==> exists n :: ListTooShort(r.graph, n)
    ensures DistinctIds(stages) && KnownParents(stages) ==>
      (r.Built? <==> Acyclic(GraphOf(stages)) && RepeatFree(GraphOf(stages)))
    ensures DistinctIds(stages) && r.Built? ==> Valid(r.graph)
  {
    var table := FillTable(stages);
    var unknown, children := LinkChildren(stages, table);
    if unknown.Some? {
      return Rejected(unknown.value);
    }
    var g := Graph(table, children);
    assert g.children == GraphOf(stages).children;
    TableFacts(stages);
    GraphOfClosed(stages);
    var ok, released := ValidateAcyclic(g);
    RepeatedNames(g);
    if DistinctIds(stages) {
      GraphOfConsistent(stages);
      SchedulableIff(g);
    }
    r := if ok then Built(g) else Rejected(DependencyCycle);
  }

  /** What the check says about any list of stages. */
  lemma RepeatedNames(g: Graph)
    requires Closed(g)
    ensures Schedulable(g) <==> forall s :: !Blocked(g, s)
    ensures Acyclic(g) ==> (Schedulable(g) <==> ListsCovered(g))
    ensures Schedulable(g) && !Acyclic(g) ==> exists n :: ListTooShort(g, n)
  {
    SchedulableUnlessBlocked(g);
    if Acyclic(g) {
      AcyclicIsAcceptedIff(g);
    } else if Schedulable(g) {
      var p :| IsCycle(g, p);
      AcceptedCycleHasShortList(g, p);
    }
  }

  method FillTable(stages: seq<Stage>) returns (table: map<Id, Stage>)
    ensures table == Table(stages)
  {
    table := map[];
    for i := 0 to |stages|
      invariant table == Table(stages[..i])
    {
      assert stages[..i + 1][..i] == stages[..i];
      table := table[stages[i].id := stages[i]];
    }
    assert stages[..|stages|] == stages;
  }

  /** `children` lists exactly the child sets declared by `stages`. */
  ghost predicate Lists(children: map<Id, set<Id>>, stages: seq<Stage>) {
    && (forall p :: p in children ==> children[p] == DeclaredChildren(stages, p) != {})
    && (forall p :: p !in children ==> DeclaredChildren(stages, p) == {})
  }

  lemma DeclareOneMore(stages: seq<Stage>, s: Stage, p: Id)
    ensures DeclaredChildren(stages + [s], p)
         == DeclaredChildren(stages, p) + if p in s.dependsOn then {s.id} else {}
  {
    assert forall t :: t in stages + [s] <==> t in stages || t == s;
  }

  method LinkChildren(stages: seq<Stage>, table: map<Id, Stage>)
    returns (unknown: Option<BuildError>, children: map<Id, set<Id>>)
    requires table == Table(stages)
    ensures unknown.Some? <==> !KnownParents(stages)
    ensures unknown.Some? ==> unknown.value.UnknownDependency? && unknown.value.parent !in table
    ensures unknown.None? ==> Lists(children, stages) && children.Keys <= table.Keys
  {
    children, unknown := map[], None;
    for i := 0 to |stages|
      invariant forall k :: 0 <= k < i ==> Elems(stages[k].dependsOn) <= table.Keys
      invariant unknown.None? && Lists(children, stages[..i]) && children.Keys <= table.Keys
    {
      assert stages[..i + 1] == stages[..i] + [stages[i]];
      assert stages[i] in stages;
      unknown, children := LinkStage(stages[i], table, children);
      if unknown.Some? {
        var p :| p in stages[i].dependsOn && p !in table;
        assert stages[i] in stages && p in stages[i].dependsOn && p !in Table(stages);
        return;
      }
      forall p ensures DeclaredChildren(stages[..i + 1], p)
                    == DeclaredChildren(stages[..i], p) + if p in stages[i].dependsOn then {stages[i].id} else {} {
        DeclareOneMore(stages[..i], stages[i], p);
      }
    }
    assert stages[..|stages|] == stages;
    forall s, p | s in stages && p in s.dependsOn ensures p in table {
      assert p in Elems(s.dependsOn);
    }
  }

  /** `children` is `before` with `child` added under each of `parents`. */
  ghost predicate Linked(before: map<Id, set<Id>>, parents: seq<Id>, child: Id, children: map<Id, set<Id>>) {
    && children.Keys == before.Keys + Elems(parents)
    && forall p :: p in children ==>
         children[p] == (if p in before then before[p] else {}) + if p in parents then {child} else {}
  }

  method LinkStage(s: Stage, table: map<Id, Stage>, children0: map<Id, set<Id>>)
    returns (unknown: Option<BuildError>, children: map<Id, set<Id>>)
    ensures unknown.Some? <==> exists p :: p in s.dependsOn && p !in table
    ensures unknown.Some? ==> unknown.value.UnknownDependency? && unknown.value.parent !in table
    ensures unknown.None? ==> Linked(children0, s.dependsOn, s.id, children)
  {
    children, unknown := children0, None;
    for j := 0 to |s.dependsOn|
      invariant forall k :: 0 <= k < j ==> s.dependsOn[k] in table
      invariant Linked(children0, s.dependsOn[..j], s.id, children)
    {
      var parent := s.dependsOn[j];
      if parent !in table {
        return Some(UnknownDependency(parent, s.id)), children;
      }
      assert s.dependsOn[..j + 1] == s.dependsOn[..j] + [parent];
      children := children[parent := (if parent in children then children[parent] else {}) + {s.id}];
    }
    assert s.dependsOn[..|s.dependsOn|] == s.dependsOn;
  }

  // ------------------------------------------ what the preconditions rule out

  lemma TwoStageTable(a: Stage, b: Stage)
    requires a.id != b.id
    ensures Table([a, b]) == map[a.id := a, b.id := b]
    ensures DistinctIds([a, b])
  {
    assert [a, b][..1] == [a] && [a][..0] == [];
    assert Table([a]) == map[a.id := a];
  }

  /** An acyclic pipeline whose one dependency is listed twice is refused. */
  lemma RepeatedDependencyIsRefused(build: Id, test: Id)
    requires build != test
    ensures
      var stages := [Stage(build, [], 0.5), Stage(test, [build, build], 0.5)];
      DistinctIds(stages) && KnownParents(stages) && Acyclic(GraphOf(stages)) && !Schedulable(GraphOf(stages))
  {
    var a, b := Stage(build, [], 0.5), Stage(test, [build, build], 0.5);
    TwoStageTable(a, b);
    var g := GraphOf([a, b]);
    GraphOfConsistent([a, b]);
    SchedulableIff(g);
    forall p | IsPath(g, p) ensures !IsCycle(g, p) {
      assert |p| >= 2 ==> p[1] in g.Children(p[0]) && p[|p| - 1] in g.Children(p[|p| - 2]);
    }
    assert b.dependsOn[0] == b.dependsOn[1];
    assert !NoDup(g.stages[test].dependsOn);
  }

  lemma TwoStepSchedule(g: Graph, first: Id, second: Id)
    requires first != second && g.stages.Keys == {first, second} && second in g.Children(first)
    requires |g.stages[first].dependsOn| == 0 && |g.stages[second].dependsOn| == 1
    ensures Schedulable(g)
  {
    ScheduleAppend(g, [], first);
    assert [] + [first] == [first] && [first] + [second] == [first, second];
    assert first in Parents(g, second) && first in Elems([first]);
    CardSubset({first}, Parents(g, second) * Elems([first]));
    ScheduleAppend(g, [first], second);
    assert IsFullSchedule(g, [first, second]);
  }

  /** When an id is declared twice, the edges of the replaced declaration still
      count: here they release a stage whose surviving declaration depends on itself. */
  lemma ReplacedDeclarationHidesACycle(build: Id, test: Id)
    requires build != test
    ensures
      var stages := [Stage(build, [], 0.5), Stage(test, [build], 0.5), Stage(test, [test], 0.5)];
      KnownParents(stages) && Schedulable(GraphOf(stages)) && IsCycle(GraphOf(stages), [test, test])
  {
    var a, b, c := Stage(build, [], 0.5), Stage(test, [build], 0.5), Stage(test, [test], 0.5);
    var stages := [a, b, c];
    TwoStageTable(a, b);
    assert stages[..2] == [a, b];
    assert Table(stages) == map[build := a, test := c];
    var g := GraphOf(stages);
    assert b in stages && c in stages;
    assert test in DeclaredChildren(stages, build) && test in DeclaredChildren(stages, test);
    assert test in g.Children(build) && test in g.Children(test);
    TwoStepSchedule(g, build, test);
  }
}
