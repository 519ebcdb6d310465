/** Root-cause ranking of failures by their place in the stage graph. Scores are
    exact reals. */
module Ranker {
  import opened Options
  import opened Reals
  import opened Sequences
  import opened PipelineGraph
  import opened Traversal

  datatype ErrorType =
    | TypeError
    | DependencyError
    | BuildFailure
    | TestAssertion
    | PackageError
    | DeploymentError
    | RuntimeFailure
    | OtherError(name: string)

  datatype Failure = Failure(stage: Id, errorType: ErrorType, severity: real, confidence: real)

  function CauseRules(e: ErrorType): set<ErrorType> {
    match e
    case TypeError => {TestAssertion, BuildFailure, PackageError}
    case DependencyError => {BuildFailure, TestAssertion, PackageError, DeploymentError}
    case BuildFailure => {PackageError, DeploymentError}
    case TestAssertion => {PackageError, DeploymentError}
    case PackageError => {DeploymentError, RuntimeFailure}
    case DeploymentError => {RuntimeFailure}
    case _ => {}
  }

  function MaxReal(a: real, b: real): real { if a >= b then a else b }

  function MaxNat(a: nat, b: nat): nat { if a >= b then a else b }

  // ------------------------------------------------------------------ facts

  lemma {:induction false} ChainIsShort(g: Graph, order: seq<Id>, p: seq<Id>)
    requires Consistent(g) && IsFullSchedule(g, order) && IsPath(g, p) && p[|p| - 1] in g.stages
    ensures p[|p| - 1] in order && |p| - 1 <= Pos(order, p[|p| - 1])
  {
    assert p[|p| - 1] in Elems(order);
    if |p| >= 2 {
      var front := p[..|p| - 1];
      assert p[|p| - 1] in g.Children(front[|front| - 1]);
      EdgesGoForward(g, order, front[|front| - 1], p[|p| - 1]);
      assert front[|front| - 1] in g.stages;
      ChainIsShort(g, order, front);
    }
  }

  lemma {:induction false} LongestChain(g: Graph, order: seq<Id>, n: Id, p: seq<Id>)
    requires Consistent(g) && IsFullSchedule(g, order) && n in g.stages && ChainTo(g, p, n)
    ensures exists d: nat :: IsDepth(g, n, d)
    decreases |order| - |p|
  {
    if q :| ChainTo(g, q, n) && |q| > |p| {
      ChainIsShort(g, order, q);
      LongestChain(g, order, n, q);
    } else {
      assert IsDepth(g, n, |p| - 1);
    }
  }

  lemma DepthExists(g: Graph, n: Id)
    requires Valid(g) && n in g.stages
    ensures exists d: nat :: IsDepth(g, n, d)
  {
    SchedulableIff(g);
    var order :| IsFullSchedule(g, order);
    LongestChain(g, order, n, [n]);
  }

  ghost function DepthOf(g: Graph, n: Id): (d: nat)
    requires Valid(g) && n in g.stages
    ensures IsDepth(g, n, d)
  {
    DepthExists(g, n);
    var d :| IsDepth(g, n, d); d
  }

  /** A later failure of the same stage replaces an earlier one. */
  function FailedByStage(failures: seq<Failure>): map<Id, Failure> {
    if failures == [] then map[]
    else FailedByStage(failures[..|failures| - 1])[failures[|failures| - 1].stage := failures[|failures| - 1]]
  }

  function FailuresBelow(below: set<Id>, failed: map<Id, Failure>): (s: set<Id>) {
    set n | n in below && n in failed
  }

  function CausalMatches(f: Failure, below: set<Id>, failed: map<Id, Failure>): set<Id> {
    set n | n in below && n in failed && failed[n].errorType in CauseRules(f.errorType)
  }

  function CausalSignal(f: Failure, below: set<Id>, failed: map<Id, Failure>): real {
    |CausalMatches(f, below, failed)| as real / MaxNat(|FailuresBelow(below, failed)|, 1) as real
  }

  /** The largest number in the list, 1 when the list is empty or holds only zeros. */
  function PositiveMax(ns: seq<nat>): (m: nat)
    ensures m >= 1 && forall n :: n in ns ==> n <= m
  {
    if ns == [] then 1
    else
      assert ns == ns[..|ns| - 1] + [ns[|ns| - 1]];
      MaxNat(ns[|ns| - 1], PositiveMax(ns[..|ns| - 1]))
  }

  lemma {:induction false} MaximumAttained(ns: seq<nat>)
    ensures PositiveMax(ns) == 1 || PositiveMax(ns) in ns
  {
    if ns != [] {
      MaximumAttained(ns[..|ns| - 1]);
    }
  }

  function Score(below: nat, maxBelow: nat, depth: nat, maxDepth: nat,
                 confidence: real, causal: real, weight: real): real
    requires maxBelow >= 1
  {
    0.30 * (below as real / maxBelow as real)
    + 0.25 * confidence
    + 0.20 * causal
    + 0.15 * (1.0 - depth as real / (maxDepth + 1) as real)
    + 0.10 * weight
  }

  /** What each signal is worth: 0.30 for reaching the most stages, 0.25 per point of confidence, 0.20
      for explaining every failure below, 0.15 for standing at the top, 0.10 per point of weight. */
  lemma ScoreWeights(below: nat, maxBelow: nat, depth: nat, maxDepth: nat, confidence: real, causal: real,
                     weight: real, x: real)
    requires maxBelow >= 1
    ensures Score(0, maxBelow, 0, maxDepth, 0.0, 0.0, 0.0) == 0.15
    ensures Score(maxBelow, maxBelow, 0, maxDepth, 1.0, 1.0, 1.0) == 1.0
    ensures Score(maxBelow, maxBelow, depth, maxDepth, confidence, causal, weight)
         == Score(0, maxBelow, depth, maxDepth, confidence, causal, weight) + 0.30
    ensures Score(below, maxBelow, 0, maxDepth, confidence, causal, weight)
         == Score(below, maxBelow, maxDepth + 1, maxDepth, confidence, causal, weight) + 0.15
    ensures Score(below, maxBelow, depth, maxDepth, confidence + x, causal, weight)
         == Score(below, maxBelow, depth, maxDepth, confidence, causal, weight) + x / 4.0
    ensures Score(below, maxBelow, depth, maxDepth, confidence, causal + x, weight)
         == Score(below, maxBelow, depth, maxDepth, confidence, causal, weight) + x / 5.0
    ensures Score(below, maxBelow, depth, maxDepth, confidence, causal, weight + x)
         == Score(below, maxBelow, depth, maxDepth, confidence, causal, weight) + x / 10.0
  {
    var m, d := maxBelow as real, (maxDepth + 1) as real;
    assert m / m == 1.0 && d / d == 1.0 && 0.0 / m == 0.0 && 0.0 / d == 0.0;
  }

  /** Between its ends the score is linear in the stages below and in the depth. */
  lemma ScoreSteps(below: nat, maxBelow: nat, depth: nat, maxDepth: nat, confidence: real, causal: real, weight: real)
    requires maxBelow >= 1
    ensures Score(below + 1, maxBelow, depth, maxDepth, confidence, causal, weight)
         == Score(below, maxBelow, depth, maxDepth, confidence, causal, weight) + 0.30 / maxBelow as real
    ensures Score(below, maxBelow, depth + 1, maxDepth, confidence, causal, weight)
         == Score(below, maxBelow, depth, maxDepth, confidence, causal, weight) - 0.15 / (maxDepth + 1) as real
  {
    var m, d := maxBelow as real, (maxDepth + 1) as real;
    QuotientSum(below as real, 1.0, m);
    QuotientSum(depth as real, 1.0, d);
    assert 0.30 * (1.0 / m) == 0.30 / m && 0.15 * (1.0 / d) == 0.15 / d;
  }

  lemma QuotientSum(a: real, b: real, m: real)
    requires m > 0.0
    ensures (a + b) / m == a / m + b / m
  {
  }

  /** Which failures an error can explain, read from the failure. */
  lemma ExplainedBy(cause: ErrorType, e: ErrorType)
    ensures e in CauseRules(cause) <==>
      match e
      case BuildFailure => cause.TypeError? || cause.DependencyError?
      case TestAssertion => cause.TypeError? || cause.DependencyError?
      case PackageError =>
        cause.TypeError? || cause.DependencyError? || cause.BuildFailure? || cause.TestAssertion?
      case DeploymentError =>
        cause.DependencyError? || cause.BuildFailure? || cause.TestAssertion? || cause.PackageError?
      case RuntimeFailure => cause.PackageError? || cause.DeploymentError?
      case _ => false
  {
  }

  /** The failure on record for a stage is its last one. */
  lemma {:induction false} LastFailureCounts(failures: seq<Failure>, n: Id)
    ensures n in FailedByStage(failures) <==> exists i :: 0 <= i < |failures| && failures[i].stage == n
    ensures n in FailedByStage(failures) ==>
      exists i :: 0 <= i < |failures| && failures[i] == FailedByStage(failures)[n] && failures[i].stage == n
                  && forall j :: i < j < |failures| ==> failures[j].stage != n
  {
    if failures != [] {
      var front, last := failures[..|failures| - 1], failures[|failures| - 1];
      LastFailureCounts(front, n);
      if last.stage != n && n in FailedByStage(front) {
        var i :| 0 <= i < |front| && front[i] == FailedByStage(front)[n] && front[i].stage == n
                 && forall j :: i < j < |front| ==> front[j].stage != n;
        assert failures[i] == front[i];
        assert forall j :: i < j < |front| ==> failures[j] == front[j];
      }
    }
  }

  /** The causal signal is the explained part of the failures below. */
  lemma CausalShare(f: Failure, below: set<Id>, failed: map<Id, Failure>)
    ensures forall n :: n in CausalMatches(f, below, failed) <==>
      n in FailuresBelow(below, failed) && failed[n].errorType in CauseRules(f.errorType)
    ensures FailuresBelow(below, failed) == {} ==> CausalSignal(f, below, failed) == 0.0
    ensures FailuresBelow(below, failed) != {} ==>
      CausalSignal(f, below, failed) * |FailuresBelow(below, failed)| as real
        == |CausalMatches(f, below, failed)| as real
  {
    if FailuresBelow(below, failed) == {} {
      assert CausalMatches(f, below, failed) == {};
    } else {
      assert |FailuresBelow(below, failed)| >= 1;
    }
  }

  // ---------------------------------------------------------------- scoring

  ghost predicate KnownStages(g: Graph, failures: seq<Failure>) {
    forall f :: f in failures ==> f.stage in g.stages
  }

  ghost function Depths(g: Graph, failures: seq<Failure>): seq<nat>
    requires Valid(g) && KnownStages(g, failures)
  {
    seq(|failures|, i requires 0 <= i < |failures| => DepthOf(g, failures[i].stage))
  }

  ghost function Fans(g: Graph, failures: seq<Failure>): seq<nat> {
    seq(|failures|, i requires 0 <= i < |failures| => |Descendants(g, failures[i].stage)|)
  }

  ghost function Weight(g: Graph, f: Failure): real
    requires f.stage in g.stages
  {
    MaxReal(f.severity, g.stages[f.stage].criticality)
  }

  ghost function Causal(g: Graph, failures: seq<Failure>, f: Failure): real {
    CausalSignal(f, Descendants(g, f.stage), FailedByStage(failures))
  }

  ghost function ScoreOf(g: Graph, failures: seq<Failure>, f: Failure): real
    requires Valid(g) && KnownStages(g, failures)
    requires f in failures
  {
    Score(|Descendants(g, f.stage)|, PositiveMax(Fans(g, failures)),
          DepthOf(g, f.stage), PositiveMax(Depths(g, failures)),
          f.confidence, Causal(g, failures, f), Weight(g, f))
  }

  lemma UnitRatio(a: nat, m: nat)
    requires m >= 1 && a <= m
    ensures 0.0 <= a as real / m as real <= 1.0
    ensures a < m ==> a as real / m as real < 1.0
  {
    var r := m as real;
    QuotientOrder(0.0, a as real, r);
    QuotientOrder(a as real, r, r);
    assert 0.0 / r == 0.0 && r / r == 1.0;
  }

  lemma UpstreamHasMoreBelow(g: Graph, a: Id, b: Id)
    requires Valid(g) && b in g.stages && Descends(g, a, b)
    ensures |Descendants(g, b)| < |Descendants(g, a)|
  {
    var below := Descendants(g, b);
    forall n | n in below ensures n in Descendants(g, a) {
      DescendsTransitive(g, a, b, n);
    }
    if b in below {
      var p :| PathBetween(g, p, b, b);
      assert IsCycle(g, p);
    }
    CardSubset(below + {b}, Descendants(g, a));
  }

  /** A failure upstream of another, and no weaker on the other three signals,
      scores strictly higher. */
  lemma UpstreamScoresHigher(g: Graph, failures: seq<Failure>, a: Failure, b: Failure)
    requires Valid(g) && KnownStages(g, failures)
    requires a in failures && b in failures && Descends(g, a.stage, b.stage)
    requires a.confidence >= b.confidence && Weight(g, a) >= Weight(g, b)
    requires Causal(g, failures, a) >= Causal(g, failures, b)
    ensures ScoreOf(g, failures, a) > ScoreOf(g, failures, b)
    ensures Round4(ScoreOf(g, failures, a)) >= Round4(ScoreOf(g, failures, b))
  {
    UpstreamHasMoreBelow(g, a.stage, b.stage);
    UpstreamIsShallower(g, a.stage, b.stage, DepthOf(g, a.stage), DepthOf(g, b.stage));
    QuotientOrder(|Descendants(g, b.stage)| as real, |Descendants(g, a.stage)| as real,
               PositiveMax(Fans(g, failures)) as real);
    QuotientOrder(DepthOf(g, a.stage) as real, DepthOf(g, b.stage) as real,
               (PositiveMax(Depths(g, failures)) + 1) as real);
    Round4Monotone(ScoreOf(g, failures, b), ScoreOf(g, failures, a));
  }

  lemma CausalBounds(g: Graph, failures: seq<Failure>, f: Failure)
    ensures 0.0 <= Causal(g, failures, f) <= 1.0
  {
    var below, failed := Descendants(g, f.stage), FailedByStage(failures);
    CardSubset(CausalMatches(f, below, failed), FailuresBelow(below, failed));
    UnitRatio(|CausalMatches(f, below, failed)|, MaxNat(|FailuresBelow(below, failed)|, 1));
  }

  /** Inputs in the unit interval give a score in the unit interval. */
  lemma ScoreBounds(g: Graph, failures: seq<Failure>, f: Failure)
    requires Valid(g) && KnownStages(g, failures)
    requires f in failures && 0.0 <= f.confidence <= 1.0 && 0.0 <= Weight(g, f) <= 1.0
    ensures 0.0 < ScoreOf(g, failures, f) <= 1.0
  {
    WithinMaxima(g, failures, f);
    CausalBounds(g, failures, f);
    UnitScore(|Descendants(g, f.stage)|, PositiveMax(Fans(g, failures)), DepthOf(g, f.stage),
              PositiveMax(Depths(g, failures)), f.confidence, Causal(g, failures, f), Weight(g, f));
  }

  lemma WithinMaxima(g: Graph, failures: seq<Failure>, f: Failure)
    requires Valid(g) && KnownStages(g, failures) && f in failures
    ensures |Descendants(g, f.stage)| <= PositiveMax(Fans(g, failures))
    ensures DepthOf(g, f.stage) <= PositiveMax(Depths(g, failures))
  {
    var i :| 0 <= i < |failures| && failures[i] == f;
    assert Fans(g, failures)[i] == |Descendants(g, f.stage)|;
    assert Depths(g, failures)[i] == DepthOf(g, f.stage);
    assert |Descendants(g, f.stage)| in Fans(g, failures) && DepthOf(g, f.stage) in Depths(g, failures);
  }

  lemma UnitScore(below: nat, maxBelow: nat, depth: nat, maxDepth: nat, confidence: real, causal: real, weight: real)
    requires 1 <= maxBelow && below <= maxBelow && depth <= maxDepth
    requires 0.0 <= confidence <= 1.0 && 0.0 <= causal <= 1.0 && 0.0 <= weight <= 1.0
    ensures 0.0 < Score(below, maxBelow, depth, maxDepth, confidence, causal, weight) <= 1.0
  {
    UnitRatio(below, maxBelow);
    UnitRatio(depth, maxDepth + 1);
  }

  /** Rounding to four decimals, halves to even. */
  function Round4(x: real): (r: real) {
    var y := x * 10000.0;
    var low := y.Floor;
    var rest := y - low as real;
    (if rest < 0.5 || (rest == 0.5 && low % 2 == 0) then low else low + 1) as real / 10000.0
  }

  /** The nearest multiple of 1/10000; of two equally near ones the even one. */
  lemma Round4Nearest(x: real) returns (k: int)
    ensures Round4(x) == k as real / 10000.0
    ensures -0.5 <= k as real - x * 10000.0 <= 0.5
    ensures (k as real - x * 10000.0 == 0.5 || k as real - x * 10000.0 == -0.5) ==> k % 2 == 0
  {
    var y := x * 10000.0;
    var low := y.Floor;
    var rest := y - low as real;
    k := if rest < 0.5 || (rest == 0.5 && low % 2 == 0) then low else low + 1;
  }

  lemma Round4Monotone(x: real, y: real)
    requires x <= y
    ensures Round4(x) <= Round4(y)
  {
    var a, b := x * 10000.0, y * 10000.0;
    assert a.Floor <= b.Floor;
  }

  // ---------------------------------------------------------------- ranking

  datatype Ranked = Ranked(failure: Failure, score: real, downstreamCount: nat, depth: nat, causalMatches: nat)

  datatype RankResult = Ranking(ranked: seq<Ranked>) | UnknownStage(stage: Id)

  ghost predicate RankedOf(g: Graph, failures: seq<Failure>, f: Failure, r: Ranked)
    requires Valid(g) && KnownStages(g, failures)
    requires f in failures
  {
    && r.failure == f && r.score == Round4(ScoreOf(g, failures, f))
    && r.downstreamCount == |Descendants(g, f.stage)| && r.depth == DepthOf(g, f.stage)
    && r.causalMatches == |CausalMatches(f, Descendants(g, f.stage), FailedByStage(failures))|
  }

  ghost predicate EntriesOf(g: Graph, failures: seq<Failure>, entries: seq<Ranked>)
    requires Valid(g) && KnownStages(g, failures)
  {
    |entries| == |failures| && forall k :: 0 <= k < |failures| ==> RankedOf(g, failures, failures[k], entries[k])
  }

  /** `sorted` holds the entries in the order `perm`: scores fall, ties keep their input order. */
  ghost predicate StableDescending(entries: seq<Ranked>, sorted: seq<Ranked>, perm: seq<nat>) {
    && |sorted| == |perm| == |entries|
    && (forall i :: 0 <= i < |perm| ==> perm[i] < |entries| && sorted[i] == entries[perm[i]])
    && (forall k: nat :: k < |entries| ==> k in perm)
    && Ordered(entries, perm)
  }

  /** Entry `a` comes before entry `b` in the ranking. */
  predicate Precedes(entries: seq<Ranked>, a: nat, b: nat)
    requires a < |entries| && b < |entries|
  {
    entries[a].score > entries[b].score || (entries[a].score == entries[b].score && a < b)
  }

  ghost predicate Ordered(entries: seq<Ranked>, perm: seq<nat>)
    requires forall i :: 0 <= i < |perm| ==> perm[i] < |entries|
  {
    forall i, j :: 0 <= i < j < |perm| ==> Precedes(entries, perm[i], perm[j])
  }

  /** The place of `e`: behind every entry that scores at least as much. */
  ghost predicate InsertionPoint(sorted: seq<Ranked>, e: Ranked, k: nat) {
    && k <= |sorted|
    && (forall i :: 0 <= i < k ==> sorted[i].score >= e.score)
    && (forall i :: k <= i < |sorted| ==> sorted[i].score < e.score)
  }

  lemma InsertKeepsAll(n: nat, perm: seq<nat>, k: nat)
    requires k <= |perm| && forall j: nat :: j < n ==> j in perm
    ensures forall j: nat :: j < n + 1 ==> j in perm[..k] + [n] + perm[k..]
  {
    var after := perm[..k] + [n] + perm[k..];
    forall j: nat | j < n + 1 ensures j in after {
      if j < n {
        assert j in perm;
        var i :| 0 <= i < |perm| && perm[i] == j;
        assert after[if i < k then i else i + 1] == j;
      } else {
        assert after[k] == j;
      }
    }
  }

  lemma InsertKeepsOrder(entries: seq<Ranked>, sorted: seq<Ranked>, perm: seq<nat>, e: Ranked, k: nat)
    requires StableDescending(entries, sorted, perm) && InsertionPoint(sorted, e, k)
    ensures StableDescending(entries + [e], sorted[..k] + [e] + sorted[k..], perm[..k] + [|entries|] + perm[k..])
  {
    var all, after := entries + [e], perm[..k] + [|entries|] + perm[k..];
    InsertKeepsAll(|entries|, perm, k);
    assert forall i :: 0 <= i < |perm| ==> all[perm[i]] == sorted[i];
    forall i, j | 0 <= i < j < |after| ensures Precedes(all, after[i], after[j]) {
      var i', j' := if i < k then i else i - 1, if j < k then j else j - 1;
      assert i != k ==> after[i] == perm[i'] && all[after[i]] == sorted[i'];
      assert j != k ==> after[j] == perm[j'] && all[after[j]] == sorted[j'];
    }
  }

  method Insert(ghost entries: seq<Ranked>, sorted0: seq<Ranked>, ghost perm0: seq<nat>, e: Ranked)
    returns (sorted: seq<Ranked>, ghost perm: seq<nat>)
    requires StableDescending(entries, sorted0, perm0)
    ensures StableDescending(entries + [e], sorted, perm)
  {
    var k := 0;
    while k < |sorted0| && sorted0[k].score >= e.score
      invariant 0 <= k <= |sorted0|
      invariant forall i :: 0 <= i < k ==> sorted0[i].score >= e.score
    {
      k := k + 1;
    }
    assert k < |sorted0| ==> forall i :: k < i < |sorted0| ==> entries[perm0[k]].score >= entries[perm0[i]].score;
    InsertKeepsOrder(entries, sorted0, perm0, e, k);
    sorted := sorted0[..k] + [e] + sorted0[k..];
    perm := perm0[..k] + [|entries|] + perm0[k..];
  }

  /** The normalisers and the stage index belong to these failures. */
  ghost predicate Surveyed(g: Graph, failures: seq<Failure>, maxBelow: nat, maxDepth: nat, failed: map<Id, Failure>)
    requires Valid(g)
  {
    && KnownStages(g, failures)
    && maxBelow == PositiveMax(Fans(g, failures)) && maxDepth == PositiveMax(Depths(g, failures))
    && failed == FailedByStage(failures)
  }

  method RankOne(g: Graph, failures: seq<Failure>, f: Failure, failed: map<Id, Failure>, maxBelow: nat, maxDepth: nat)
    returns (r: Ranked)
    requires Valid(g) && f in failures && Surveyed(g, failures, maxBelow, maxDepth, failed)
    ensures KnownStages(g, failures) && RankedOf(g, failures, f, r)
  {
    var below := FindDescendants(g, f.stage);
    var depth := Depth(g, f.stage);
    DepthUnique(g, f.stage, depth.value, DepthOf(g, f.stage));
    var score := Score(|below|, maxBelow, depth.value, maxDepth, f.confidence,
                       CausalSignal(f, below, failed), MaxReal(f.severity, g.stages[f.stage].criticality));
    r := Ranked(f, Round4(score), |below|, depth.value, |CausalMatches(f, below, failed)|);
  }

  method Rank(g: Graph, failures: seq<Failure>)
    returns (r: RankResult, ghost entries: seq<Ranked>, ghost perm: seq<nat>)
    requires Valid(g)
    ensures r.UnknownStage? <==> !KnownStages(g, failures)
    ensures r.Ranking? ==>
      KnownStages(g, failures) && EntriesOf(g, failures, entries) && StableDescending(entries, r.ranked, perm)
  {
    var unknown, maxBelow, maxDepth, failed := Survey(g, failures);
    if unknown.Some? {
      return RankResult.UnknownStage(unknown.value), [], [];
    }
    var scored := ScoreAll(g, failures, failed, maxBelow, maxDepth);
    var ranked;
    ranked, perm := SortDescending(scored);
    r, entries := Ranking(ranked), scored;
  }

  method ScoreAll(g: Graph, failures: seq<Failure>, failed: map<Id, Failure>, maxBelow: nat, maxDepth: nat)
    returns (entries: seq<Ranked>)
    requires Valid(g) && Surveyed(g, failures, maxBelow, maxDepth, failed)
    ensures EntriesOf(g, failures, entries)
  {
    entries := [];
    for i := 0 to |failures|
      invariant |entries| == i && EntriesSoFar(g, failures, entries)
    {
      var e := RankOne(g, failures, failures[i], failed, maxBelow, maxDepth);
      assert (entries + [e])[..i] == entries;
      entries := entries + [e];
    }
    EntriesComplete(g, failures, entries);
  }

  ghost predicate EntriesSoFar(g: Graph, failures: seq<Failure>, entries: seq<Ranked>)
    requires Valid(g) && KnownStages(g, failures)
    decreases |entries|
  {
    var n := |entries| - 1;
    entries == [] ||
    (n < |failures| && EntriesSoFar(g, failures, entries[..n]) && RankedOf(g, failures, failures[n], entries[n]))
  }

  lemma {:induction false} EntryAt(g: Graph, failures: seq<Failure>, entries: seq<Ranked>, k: nat)
    requires Valid(g) && KnownStages(g, failures) && EntriesSoFar(g, failures, entries) && k < |entries|
    ensures |entries| <= |failures| && RankedOf(g, failures, failures[k], entries[k])
    decreases |entries|
  {
    if k < |entries| - 1 {
      EntryAt(g, failures, entries[..|entries| - 1], k);
    }
  }

  lemma EntriesComplete(g: Graph, failures: seq<Failure>, entries: seq<Ranked>)
    requires Valid(g) && KnownStages(g, failures) && EntriesSoFar(g, failures, entries) && |entries| == |failures|
    ensures EntriesOf(g, failures, entries)
  {
    forall k | 0 <= k < |failures| ensures RankedOf(g, failures, failures[k], entries[k]) {
      EntryAt(g, failures, entries, k);
    }
  }

  method SortDescending(entries: seq<Ranked>) returns (sorted: seq<Ranked>, ghost perm: seq<nat>)
    ensures StableDescending(entries, sorted, perm)
    ensures |sorted| == |entries| && forall e :: e in sorted <==> e in entries
    ensures forall i, j :: 0 <= i < j < |sorted| ==> sorted[i].score >= sorted[j].score
  {
    sorted, perm := [], [];
    for i := 0 to |entries|
      invariant StableDescending(entries[..i], sorted, perm)
    {
      assert entries[..i + 1] == entries[..i] + [entries[i]];
      sorted, perm := Insert(entries[..i], sorted, perm, entries[i]);
    }
    assert entries[..|entries|] == entries;
    SameEntries(entries, sorted, perm);
  }

  /** What the permutation means for the two lists. */
  lemma SameEntries(entries: seq<Ranked>, sorted: seq<Ranked>, perm: seq<nat>)
    requires StableDescending(entries, sorted, perm)
    ensures forall e :: e in sorted <==> e in entries
    ensures forall i, j :: 0 <= i < j < |sorted| ==> sorted[i].score >= sorted[j].score
  {
    forall e | e in entries ensures e in sorted {
      var k: nat :| k < |entries| && entries[k] == e;
      assert k in perm;
      var i :| 0 <= i < |perm| && perm[i] == k;
      assert sorted[i] == e;
    }
    assert forall i, j :: 0 <= i < j < |perm| ==> Precedes(entries, perm[i], perm[j]);
  }

  lemma {:induction false} MaxDepthSoFar(g: Graph, failures: seq<Failure>, f: Failure)
    requires Valid(g) && KnownStages(g, failures) && f.stage in g.stages
    ensures KnownStages(g, failures + [f])
    ensures PositiveMax(Depths(g, failures + [f])) == MaxNat(DepthOf(g, f.stage), PositiveMax(Depths(g, failures)))
    ensures PositiveMax(Fans(g, failures + [f])) == MaxNat(|Descendants(g, f.stage)|, PositiveMax(Fans(g, failures)))
  {
    var all := failures + [f];
    assert KnownStages(g, all);
    assert Depths(g, all)[..|failures|] == Depths(g, failures);
    assert Fans(g, all)[..|failures|] == Fans(g, failures);
  }

  lemma SurveyNext(g: Graph, failures: seq<Failure>, f: Failure, maxBelow: nat, maxDepth: nat, failed: map<Id, Failure>)
    requires Valid(g) && Surveyed(g, failures, maxBelow, maxDepth, failed) && f.stage in g.stages
    ensures Surveyed(g, failures + [f], MaxNat(|Descendants(g, f.stage)|, maxBelow),
                     MaxNat(DepthOf(g, f.stage), maxDepth), failed[f.stage := f])
  {
    MaxDepthSoFar(g, failures, f);
    assert (failures + [f])[..|failures|] == failures;
  }

  /** The normalisers and the stage index, gathered over all failures. */
  method Survey(g: Graph, failures: seq<Failure>)
    returns (unknown: Option<Id>, maxBelow: nat, maxDepth: nat, failed: map<Id, Failure>)
    requires Valid(g)
    ensures unknown.Some? <==> !KnownStages(g, failures)
    ensures unknown.None? ==> Surveyed(g, failures, maxBelow, maxDepth, failed)
  {
    unknown, maxBelow, maxDepth, failed := None, 1, 1, map[];
    for i := 0 to |failures|
      invariant Surveyed(g, failures[..i], maxBelow, maxDepth, failed)
    {
      var f := failures[i];
      var below := FindDescendants(g, f.stage);
      var depth := Depth(g, f.stage);
      if depth.None? {
        return Some(f.stage), maxBelow, maxDepth, failed;
      }
      DepthUnique(g, f.stage, depth.value, DepthOf(g, f.stage));
      SurveyNext(g, failures[..i], f, maxBelow, maxDepth, failed);
      assert failures[..i + 1] == failures[..i] + [f];
      maxBelow := MaxNat(|below|, maxBelow);
      maxDepth := MaxNat(depth.value, maxDepth);
      failed := failed[f.stage := f];
    }
    assert failures[..|failures|] == failures;
  }

  /** In the ranking a dominated downstream failure comes before its upstream
      cause only on equal rounded scores and an earlier place in the input. */
  lemma CauseRankedFirst(g: Graph, failures: seq<Failure>, entries: seq<Ranked>, ranked: seq<Ranked>,
                         perm: seq<nat>, i: nat, j: nat)
    requires Valid(g) && KnownStages(g, failures)
    requires EntriesOf(g, failures, entries) && StableDescending(entries, ranked, perm)
    requires i < j < |ranked|
    requires var b, a := ranked[i].failure, ranked[j].failure;
      Descends(g, a.stage, b.stage) && a.confidence >= b.confidence && a.stage in g.stages && b.stage in g.stages
      && Weight(g, a) >= Weight(g, b) && Causal(g, failures, a) >= Causal(g, failures, b)
    ensures ranked[i].score == ranked[j].score && perm[i] < perm[j]
  {
    assert ranked[i] == entries[perm[i]] && ranked[j] == entries[perm[j]];
    assert RankedOf(g, failures, failures[perm[i]], entries[perm[i]]);
    assert RankedOf(g, failures, failures[perm[j]], entries[perm[j]]);
    UpstreamScoresHigher(g, failures, ranked[j].failure, ranked[i].failure);
  }
}
