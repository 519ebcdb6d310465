/** The final verdict on a repair, from the evidence collected about it. */
module Remediation {
  import opened Sequences

  datatype Gate = Passed | FailedGate | FailedPreexisting | NotRun | Waived
  {
    predicate Satisfied() { Passed? || Waived? }
  }

  /** Unknown until collected. */
  datatype Answer = Unknown | No | Yes

  datatype RiskLevel = Low | Medium | High

  datatype PolicyOutcome = NoPolicy | Approve | Reject | Escalate

  datatype Evidence = Evidence(
    repairProposed: bool, patchApplied: bool,
    reproduced: Answer, resolved: Answer, targetedPassed: Answer, targetMissing: bool,
    affectedTests: Gate, regressionSuite: Gate, newFailures: seq<string>,
    testCountDecreased: Answer, skippedIncreased: Answer,
    coverage: Gate, lint: Gate, typecheck: Gate, security: Gate, build: Gate, invariants: Gate,
    forbiddenDiff: bool, forbiddenCodes: seq<string>,
    policy: PolicyOutcome, humanApproved: bool, realCi: Answer, risk: RiskLevel)
  {
    function Gates(): seq<Gate> {
      [affectedTests, regressionSuite, coverage, lint, typecheck, security, build, invariants]
    }

    predicate PolicySatisfied() { policy.Approve? || humanApproved }

    predicate RiskSatisfied() { !risk.High? || humanApproved }
  }

  datatype State =
    | FailureReceived | FailureReproduced | RepairProposed | PatchApplied | TargetedValidationPassed
    | RegressionValidationPassed | PolicyApproved | CiGreenButUnverified | VerifiedFixed
    | RegressionDetected | PolicyRejected | HumanReviewRequired | NotFixed

  datatype MergeRequirement = AutomaticAllowed | HumanApprovalBeforeMerge | HumanReview | Blocked

  datatype Missing =
    | MissingReproduction | MissingResolution | MissingTargeted | MissingTestCount | MissingGate(i: nat) | MissingCi

  datatype Verdict = Verdict(state: State, missing: seq<Missing>, merge: MergeRequirement, trail: seq<State>)

  ghost predicate AllSatisfied(gates: seq<Gate>) {
    forall i :: 0 <= i < |gates| ==> gates[i].Satisfied()
  }

  /** Every required piece of evidence is present and passing. */
  ghost predicate IsVerifiedFix(v: Evidence) {
    && v.repairProposed && v.patchApplied && v.reproduced.Yes? && v.resolved.Yes? && v.targetedPassed.Yes?
    && !v.targetMissing && AllSatisfied(v.Gates()) && v.newFailures == []
    && v.testCountDecreased.No? && !v.skippedIncreased.Yes?
    && !v.forbiddenDiff && v.PolicySatisfied() && v.RiskSatisfied() && v.realCi.Yes?
  }

  /** Evidence that was not collected, or that cannot vouch for the repair. */
  predicate IsMissing(v: Evidence, m: Missing) {
    match m
    case MissingReproduction => !v.reproduced.Yes?
    case MissingResolution => v.resolved.Unknown?
    case MissingTargeted => v.targetedPassed.Unknown?
    case MissingTestCount => v.testCountDecreased.Unknown?
    case MissingGate(i) => i < |v.Gates()| && (v.Gates()[i].NotRun? || v.Gates()[i].FailedPreexisting?)
    case MissingCi => v.realCi.Unknown?
  }

  /** The place of an item in the report: the answers, then the gates in order, then CI. */
  function Place(m: Missing): int {
    match m
    case MissingReproduction => -4
    case MissingResolution => -3
    case MissingTargeted => -2
    case MissingTestCount => -1
    case MissingGate(i) => i
    case MissingCi => 8
  }

  /** All items missing below place `n`, in order and once each. */
  ghost predicate Listed(v: Evidence, s: seq<Missing>, n: int) {
    && (forall i, j :: 0 <= i < j < |s| ==> Place(s[i]) < Place(s[j]))
    && (forall m :: m in s <==> IsMissing(v, m) && Place(m) < n)
  }

  /** Appends `m` if it is missing. */
  method Note(v: Evidence, s: seq<Missing>, absent: bool, m: Missing) returns (t: seq<Missing>)
    requires Listed(v, s, Place(m)) && (m.MissingGate? ==> m.i < 8) && (absent <==> IsMissing(v, m))
    ensures Listed(v, t, Place(m) + 1)
  {
    t := if absent then s + [m] else s;
    assert forall x :: x in t <==> x in s || (x == m && absent);
    assert forall x | IsMissing(v, x) && Place(x) == Place(m) :: x == m;
  }

  method CollectMissing(v: Evidence) returns (missing: seq<Missing>)
    ensures Listed(v, missing, 9)
  {
    missing := Note(v, [], !v.reproduced.Yes?, MissingReproduction);
    missing := Note(v, missing, v.resolved.Unknown?, MissingResolution);
    missing := Note(v, missing, v.targetedPassed.Unknown?, MissingTargeted);
    missing := Note(v, missing, v.testCountDecreased.Unknown?, MissingTestCount);
    for i := 0 to 8
      invariant Listed(v, missing, i)
    {
      var status := v.Gates()[i];
      missing := Note(v, missing, status.NotRun? || status.FailedPreexisting?, MissingGate(i));
    }
    missing := Note(v, missing, v.realCi.Unknown?, MissingCi);
  }

  function Order(s: State): nat {
    match s
    case FailureReceived => 0
    case FailureReproduced => 1
    case RepairProposed => 2
    case PatchApplied => 3
    case TargetedValidationPassed => 4
    case RegressionValidationPassed => 5
    case PolicyApproved => 6
    case _ => 7
  }

  /** The evidence carried the repair through this station. */
  predicate Reached(v: Evidence, s: State) {
    match s
    case FailureReceived => true
    case FailureReproduced => v.reproduced.Yes?
    case RepairProposed => v.repairProposed
    case PatchApplied => v.patchApplied
    case TargetedValidationPassed => v.targetedPassed.Yes? && v.resolved.Yes?
    case RegressionValidationPassed =>
      && v.targetedPassed.Yes? && v.resolved.Yes?
      && v.regressionSuite.Satisfied() && v.affectedTests.Satisfied() && v.newFailures == []
    case PolicyApproved => v.PolicySatisfied() && !v.forbiddenDiff
    case _ => false
  }

  ghost predicate Ascending(s: seq<State>) {
    forall i, j :: 0 <= i < j < |s| ==> Order(s[i]) < Order(s[j])
  }

  /** Exactly the stations reached before station number `n`, in order. */
  ghost predicate Visited(v: Evidence, s: seq<State>, n: nat) {
    Ascending(s) && forall x :: x in s <==> Reached(v, x) && Order(x) < n
  }

  /** Appends station `x` if it was reached. */
  method Pass(v: Evidence, s: seq<State>, reached: bool, x: State) returns (t: seq<State>)
    requires Visited(v, s, Order(x)) && Order(x) < 7 && (reached <==> Reached(v, x))
    ensures Visited(v, t, Order(x) + 1)
  {
    t := if reached then s + [x] else s;
    assert forall y :: y in t <==> y in s || (y == x && reached);
    assert forall y | Order(y) == Order(x) :: y == x;
  }

  /** A trail visits the reached stations in order and ends in the verdict. */
  ghost predicate TrailSound(v: Evidence, final: State, trail: seq<State>) {
    && trail != [] && trail[|trail| - 1] == final && Ascending(trail) && NoDup(trail)
    && forall x :: x in trail <==> Reached(v, x) || x == final
  }

  lemma CloseTrail(v: Evidence, s: seq<State>, final: State)
    requires Visited(v, s, 7) && (Order(final) == 7 || (final.PolicyApproved? && Reached(v, final)))
    ensures s != []
    ensures TrailSound(v, final, if s[|s| - 1] != final then s + [final] else s)
  {
    assert FailureReceived in s;
    assert s[|s| - 1] in s;
    if final.PolicyApproved? {
      assert forall y :: y in s <==> Reached(v, y);
    } else {
      assert forall y :: y in s + [final] <==> y in s || y == final;
    }
  }

  method BuildTrail(v: Evidence, final: State) returns (trail: seq<State>)
    requires Order(final) == 7 || (final.PolicyApproved? && Reached(v, final))
    ensures TrailSound(v, final, trail)
  {
    trail := Pass(v, [], true, FailureReceived);
    trail := Pass(v, trail, v.reproduced.Yes?, FailureReproduced);
    trail := Pass(v, trail, v.repairProposed, RepairProposed);
    trail := Pass(v, trail, v.patchApplied, PatchApplied);
    var targeted := v.targetedPassed.Yes? && v.resolved.Yes?;
    trail := Pass(v, trail, targeted, TargetedValidationPassed);
    var clean := v.regressionSuite.Satisfied() && v.affectedTests.Satisfied() && v.newFailures == [];
    trail := Pass(v, trail, targeted && clean, RegressionValidationPassed);
    trail := Pass(v, trail, v.PolicySatisfied() && !v.forbiddenDiff, PolicyApproved);
    CloseTrail(v, trail, final);
    if trail[|trail| - 1] != final {
      trail := trail + [final];
    }
  }

  method AnyRegressed(gates: seq<Gate>) returns (found: bool)
    ensures found <==> !NothingRegressed(gates)
  {
    for i := 0 to |gates|
      invariant forall k :: 0 <= k < i ==> !gates[k].FailedGate?
    {
      if gates[i].FailedGate? {
        return true;
      }
    }
    found := false;
  }

  method AllGatesSatisfied(gates: seq<Gate>) returns (ok: bool)
    ensures ok <==> AllSatisfied(gates)
  {
    for i := 0 to |gates|
      invariant forall k :: 0 <= k < i ==> gates[k].Satisfied()
    {
      if !gates[i].Satisfied() {
        return false;
      }
    }
    ok := true;
  }

  predicate MustReject(v: Evidence) {
    v.forbiddenCodes != [] || v.forbiddenDiff || v.targetMissing || v.testCountDecreased.Yes? || v.skippedIncreased.Yes?
    || v.policy.Reject?
  }

  function MergeForRisk(v: Evidence): MergeRequirement {
    if v.risk.Low? && !v.humanApproved then AutomaticAllowed else HumanApprovalBeforeMerge
  }

  method CheckVerifiedFix(v: Evidence) returns (ok: bool)
    ensures ok <==> IsVerifiedFix(v)
  {
    var gates := AllGatesSatisfied(v.Gates());
    ok := v.repairProposed && v.patchApplied && v.reproduced.Yes? && v.resolved.Yes? && v.targetedPassed.Yes?
          && !v.targetMissing && gates && v.newFailures == []
          && v.testCountDecreased.No? && !v.skippedIncreased.Yes?
          && !v.forbiddenDiff && v.PolicySatisfied() && v.RiskSatisfied() && v.realCi.Yes?;
  }

  ghost predicate NothingRegressed(gates: seq<Gate>) {
    forall i :: 0 <= i < |gates| ==> !gates[i].FailedGate?
  }

  // --------------------------------------- the verdict, from the single pieces of evidence

  /** Something the repair must never do, or a policy rejection. */
  predicate Refused(v: Evidence) {
    || v.forbiddenCodes != [] || v.forbiddenDiff || v.targetMissing || v.policy.Reject?
    || v.testCountDecreased.Yes? || v.skippedIncreased.Yes?
  }

  predicate SomethingFailed(v: Evidence) {
    || v.newFailures != [] || v.affectedTests.FailedGate? || v.regressionSuite.FailedGate? || v.coverage.FailedGate?
    || v.lint.FailedGate? || v.typecheck.FailedGate? || v.security.FailedGate? || v.build.FailedGate?
    || v.invariants.FailedGate?
  }

  /** A person has to look at high risk and at everything the policy did not approve, unless one did. */
  predicate Unsettled(v: Evidence) {
    v.realCi.No? || (!v.humanApproved && (v.risk.High? || !v.policy.Approve?))
  }

  predicate Vouches(g: Gate) { g.Passed? || g.Waived? }

  predicate Complete(v: Evidence) {
    && v.reproduced.Yes? && v.resolved.Yes? && v.targetedPassed.Yes? && v.testCountDecreased.No?
    && Vouches(v.affectedTests) && Vouches(v.regressionSuite) && Vouches(v.coverage) && Vouches(v.lint)
    && Vouches(v.typecheck) && Vouches(v.security) && Vouches(v.build) && Vouches(v.invariants)
  }

  /** Each verdict exactly when it is given. */
  ghost predicate StateAnswers(v: Evidence, s: State) {
    var open := !Refused(v) && !Unfixed(v) && !SomethingFailed(v);
    && (s.PolicyRejected? <==> Refused(v))
    && (s.NotFixed? <==> !Refused(v) && Unfixed(v))
    && (s.RegressionDetected? <==> !Refused(v) && !Unfixed(v) && SomethingFailed(v))
    && (s.HumanReviewRequired? <==> open && Unsettled(v))
    && (s.PolicyApproved? <==> open && !Unsettled(v) && v.realCi.Unknown?)
    && (s.CiGreenButUnverified? <==> open && !Unsettled(v) && v.realCi.Yes? && !Complete(v))
    && (s.VerifiedFixed? <==> open && !Unsettled(v) && v.realCi.Yes? && Complete(v))
  }

  /** The stations on the trail. */
  ghost predicate TrailAnswers(v: Evidence, s: State, trail: seq<State>) {
    var settled := v.humanApproved || v.policy.Approve?;
    var fixed := v.targetedPassed.Yes? && v.resolved.Yes?;
    && FailureReceived in trail && s in trail
    && (FailureReproduced in trail <==> v.reproduced.Yes?)
    && (RepairProposed in trail <==> v.repairProposed) && (PatchApplied in trail <==> v.patchApplied)
    && (TargetedValidationPassed in trail <==> fixed)
    && (RegressionValidationPassed in trail <==>
          fixed && Vouches(v.regressionSuite) && Vouches(v.affectedTests) && v.newFailures == [])
    && (PolicyApproved in trail <==> settled && !v.forbiddenDiff)
    && (forall x :: x in trail && !Station(x) ==> x == s)
  }

  predicate Station(s: State) {
    || s.FailureReceived? || s.FailureReproduced? || s.RepairProposed? || s.PatchApplied?
    || s.TargetedValidationPassed? || s.RegressionValidationPassed? || s.PolicyApproved?
  }

  /** The evidence reported missing. */
  ghost predicate MissingAnswers(v: Evidence, missing: seq<Missing>) {
    && (MissingReproduction in missing <==> v.reproduced.Unknown? || v.reproduced.No?)
    && (MissingResolution in missing <==> v.resolved.Unknown?)
    && (MissingTargeted in missing <==> v.targetedPassed.Unknown?)
    && (MissingTestCount in missing <==> v.testCountDecreased.Unknown?)
    && (MissingCi in missing <==> v.realCi.Unknown?)
    && (MissingGate(0) in missing <==> v.affectedTests.NotRun? || v.affectedTests.FailedPreexisting?)
    && (MissingGate(1) in missing <==> v.regressionSuite.NotRun? || v.regressionSuite.FailedPreexisting?)
    && (MissingGate(2) in missing <==> v.coverage.NotRun? || v.coverage.FailedPreexisting?)
    && (MissingGate(3) in missing <==> v.lint.NotRun? || v.lint.FailedPreexisting?)
    && (MissingGate(4) in missing <==> v.typecheck.NotRun? || v.typecheck.FailedPreexisting?)
    && (MissingGate(5) in missing <==> v.security.NotRun? || v.security.FailedPreexisting?)
    && (MissingGate(6) in missing <==> v.build.NotRun? || v.build.FailedPreexisting?)
    && (MissingGate(7) in missing <==> v.invariants.NotRun? || v.invariants.FailedPreexisting?)
    && (forall i :: MissingGate(i) in missing ==> i < 8)
    && forall i, j :: 0 <= i < j < |missing| ==> Place(missing[i]) < Place(missing[j])
  }

  lemma FailuresSeen(v: Evidence)
    ensures SomethingFailed(v) <==> Regressed(v)
    ensures Complete(v) <==>
      (v.reproduced.Yes? && v.resolved.Yes? && v.targetedPassed.Yes? && v.testCountDecreased.No?
       && AllSatisfied(v.Gates()))
  {
    var g := v.Gates();
    assert g[0] == v.affectedTests && g[1] == v.regressionSuite && g[2] == v.coverage && g[3] == v.lint;
    assert g[4] == v.typecheck && g[5] == v.security && g[6] == v.build && g[7] == v.invariants;
  }

  lemma StateMeans(v: Evidence, s: State)
    ensures Means(v, s) ==> StateAnswers(v, s)
  {
    FailuresSeen(v);
  }

  lemma TrailMeans(v: Evidence, s: State, trail: seq<State>)
    requires TrailSound(v, s, trail) && StateAnswers(v, s)
    ensures TrailAnswers(v, s, trail)
  {
  }

  lemma MissingMeans(v: Evidence, missing: seq<Missing>)
    requires Listed(v, missing, 9)
    ensures MissingAnswers(v, missing)
  {
  }

  /** The verdict on a repair, with what is missing, what merging it takes and how it got there. */
  method DecideRemediation(v: Evidence) returns (r: Verdict)
    ensures r.state.VerifiedFixed? <==> IsVerifiedFix(v) && v.forbiddenCodes == [] && !v.policy.Reject?
    ensures StateAnswers(v, r.state) && TrailAnswers(v, r.state, r.trail) && MissingAnswers(v, r.missing)
    ensures r.state.VerifiedFixed? ==> r.missing == []
    ensures r.state.CiGreenButUnverified? ==> r.missing != []
    ensures forall s :: s == r.state <==> Means(v, s)
    ensures TrailSound(v, r.state, r.trail)
    ensures forall m :: m in r.missing <==> IsMissing(v, m)
    ensures r.merge.Blocked? <==> r.state in {PolicyRejected, NotFixed, RegressionDetected}
    ensures r.merge.AutomaticAllowed? ==> v.policy.Approve?
    ensures r.merge.HumanReview? <==> r.state in {HumanReviewRequired, CiGreenButUnverified}
    ensures r.merge.AutomaticAllowed? <==> r.state in {PolicyApproved, VerifiedFixed} && v.risk.Low? && !v.humanApproved
  {
    var missing := CollectMissing(v);
    var state, merge := Choose(v);
    var trail := BuildTrail(v, state);
    forall s | Means(v, s) ensures s == state {
      VerdictIsUnique(v, s, state);
    }
    if state.VerifiedFixed? {
      VerifiedLacksNothing(v, missing);
    } else if state.CiGreenButUnverified? {
      UnverifiedLacksSomething(v);
    }
    StateMeans(v, state);
    TrailMeans(v, state, trail);
    MissingMeans(v, missing);
    r := Verdict(state, missing, merge, trail);
  }

  /** The patch is not there, or it did not fix the failure. */
  predicate Unfixed(v: Evidence) {
    !v.repairProposed || !v.patchApplied || v.targetedPassed.No? || v.resolved.No?
  }

  ghost predicate Regressed(v: Evidence) {
    v.newFailures != [] || !NothingRegressed(v.Gates())
  }

  predicate NeedsReview(v: Evidence) {
    !v.RiskSatisfied() || !v.PolicySatisfied() || v.realCi.No?
  }

  /** What each verdict means, verdicts of higher precedence excluded. */
  ghost predicate Means(v: Evidence, state: State) {
    match state
    case PolicyRejected => MustReject(v)
    case NotFixed => !MustReject(v) && Unfixed(v)
    case RegressionDetected => !MustReject(v) && !Unfixed(v) && Regressed(v)
    case HumanReviewRequired => !MustReject(v) && !Unfixed(v) && !Regressed(v) && NeedsReview(v)
    case PolicyApproved => !MustReject(v) && !Unfixed(v) && !Regressed(v) && !NeedsReview(v) && v.realCi.Unknown?
    case CiGreenButUnverified => Unopposed(v) && !IsVerifiedFix(v)
    case VerifiedFixed => IsVerifiedFix(v) && v.forbiddenCodes == [] && !v.policy.Reject?
    case _ => false
  }

  /** Every body of evidence gets exactly one verdict. */
  lemma VerdictIsUnique(v: Evidence, s: State, t: State)
    requires Means(v, s) && Means(v, t)
    ensures s == t
  {
  }

  /** CI is green and nothing speaks against the repair. */
  ghost predicate Unopposed(v: Evidence) {
    && v.realCi.Yes? && !MustReject(v) && v.repairProposed && v.patchApplied
    && !v.targetedPassed.No? && !v.resolved.No? && v.newFailures == []
    && v.RiskSatisfied() && v.PolicySatisfied() && NothingRegressed(v.Gates())
  }

  method Choose(v: Evidence) returns (state: State, merge: MergeRequirement)
    ensures state.VerifiedFixed? <==> IsVerifiedFix(v) && v.forbiddenCodes == [] && !v.policy.Reject?
    ensures state.CiGreenButUnverified? <==> Unopposed(v) && !IsVerifiedFix(v)
    ensures Means(v, state)
    ensures Order(state) == 7 || (state.PolicyApproved? && Reached(v, state))
    ensures merge.Blocked? <==> state in {PolicyRejected, NotFixed, RegressionDetected}
    ensures merge.AutomaticAllowed? ==> v.policy.Approve?
    ensures merge.HumanReview? <==> state in {HumanReviewRequired, CiGreenButUnverified}
    ensures merge.AutomaticAllowed? <==> state in {PolicyApproved, VerifiedFixed} && v.risk.Low? && !v.humanApproved
  {
    if MustReject(v) {
      return PolicyRejected, Blocked;
    }
    if !v.repairProposed || !v.patchApplied || v.targetedPassed.No? || v.resolved.No? {
      return NotFixed, Blocked;
    }
    var regressed := AnyRegressed(v.Gates());
    if v.newFailures != [] || regressed {
      return RegressionDetected, Blocked;
    }
    if !v.RiskSatisfied() || !v.PolicySatisfied() || v.realCi.No? {
      return HumanReviewRequired, HumanReview;
    }
    if v.realCi.Unknown? {
      return PolicyApproved, MergeForRisk(v);
    }
    var verified := CheckVerifiedFix(v);
    if !verified {
      return CiGreenButUnverified, HumanReview;
    }
    return VerifiedFixed, MergeForRisk(v);
  }

  lemma VerifiedLacksNothing(v: Evidence, missing: seq<Missing>)
    requires IsVerifiedFix(v) && forall m :: m in missing <==> IsMissing(v, m)
    ensures missing == []
  {
    assert forall m :: !IsMissing(v, m);
    NothingInside(missing);
  }

  /** When nothing speaks against a repair and it is still not verified, something is missing. */
  lemma UnverifiedLacksSomething(v: Evidence)
    requires Unopposed(v) && !IsVerifiedFix(v)
    ensures exists m :: IsMissing(v, m)
  {
    if AllSatisfied(v.Gates()) {
      assert IsMissing(v, MissingReproduction) || IsMissing(v, MissingResolution) || IsMissing(v, MissingTargeted)
             || IsMissing(v, MissingTestCount);
    } else {
      var i: nat :| i < |v.Gates()| && !v.Gates()[i].Satisfied();
      assert IsMissing(v, MissingGate(i));
    }
  }
}
