/** The bounded repair loop: one incident, moved by coordinator calls in any order,
    under a supervisor policy. */
module Repair {

  type Path(==, !new)

  datatype RepairState =
    | Detected | Planned | Dispatched | Verifying | Rerunning | Green | ReviewRequired | Escalated | Denied

  datatype Reason =
    | DeniedByPolicy | AnalysisOnly | AuthorityGranted | TaskDispatched
    | WorkerFailedSafetyGate | NoPatchProposed | CandidateReady
    | UnsafeRepair | SecurityGateFailed | TestsFailed | PolicyNeedsReview | SuccessPredicateMet | CiStillRed
    | BoundedRetry

  /** A hash is the value it was computed from. */
  datatype Digest =
    | Genesis
    | Sha256(incident: string, sequence: nat, from: RepairState, to: RepairState, reason: Reason, previous: Digest)
  {
    /** Length of the hexadecimal text. */
    function HexLength(): nat { if Genesis? then 7 else 64 }
  }

  datatype Transition = Transition(sequence: nat, from: RepairState, to: RepairState, reason: Reason, digest: Digest)

  datatype Check = Check(paths: seq<Path>, failureClass: string)

  datatype Incident = Incident(id: string, check: Check, state: RepairState, attempt: nat, cost: real,
                               elapsed: int, transitions: seq<Transition>)

  // -------------------------------------------------------------- supervisor

  datatype Authority = AutonomousPatch | PatchRequiresReview | RcaOnly | Deny

  datatype Risk = Low | Medium | High | Critical

  datatype Policy = Policy(maxAttempts: nat, maxChangedFiles: nat, maxChangedLines: int, maxCost: real, maxElapsed: int,
                           isCritical: Path -> bool, isProtected: Path -> bool, lowRisk: set<string>)
  {
    predicate Valid() {
      maxAttempts >= 1 && maxChangedFiles >= 1 && maxChangedLines >= 1 && maxCost >= 0.0 && maxElapsed >= 1
    }
  }

  /** The evidence the supervisor decides on. */
  datatype Request = Request(
    paths: seq<Path>, failureClass: string, changedLines: int, attempt: nat, cost: real, elapsed: int,
    regression: bool, securityFinding: bool, testWeakening: bool, unknownFailure: bool)

  ghost predicate Touches(paths: seq<Path>, f: Path -> bool) {
    exists i :: 0 <= i < |paths| && f(paths[i])
  }

  method AnyPath(paths: seq<Path>, f: Path -> bool) returns (found: bool)
    ensures found <==> Touches(paths, f)
  {
    for i := 0 to |paths|
      invariant forall k :: 0 <= k < i ==> !f(paths[k])
    {
      if f(paths[i]) {
        return true;
      }
    }
    found := false;
  }

  ghost function ClassifyRisk(p: Policy, r: Request): Risk {
    if r.securityFinding || Touches(r.paths, p.isCritical) then Critical
    else if Touches(r.paths, p.isProtected) then High
    else if r.unknownFailure || r.failureClass !in p.lowRisk then Medium
    else Low
  }

  predicate Disqualified(p: Policy, r: Request) {
    || r.regression || r.testWeakening
    || r.attempt > p.maxAttempts || |r.paths| > p.maxChangedFiles || r.changedLines > p.maxChangedLines
    || r.cost > p.maxCost || r.elapsed > p.maxElapsed
  }

  ghost function Authorize(p: Policy, r: Request): Authority {
    if Disqualified(p, r) then Deny
    else match ClassifyRisk(p, r)
      case Critical => Deny
      case High => RcaOnly
      case Medium => PatchRequiresReview
      case Low => AutonomousPatch
  }

  /** Each risk level, from the request. */
  ghost predicate RiskAnswers(p: Policy, r: Request, risk: Risk) {
    var severe, sensitive := r.securityFinding || Touches(r.paths, p.isCritical), Touches(r.paths, p.isProtected);
    && (risk.Critical? <==> severe)
    && (risk.High? <==> !severe && sensitive)
    && (risk.Low? <==> !severe && !sensitive && !r.unknownFailure && r.failureClass in p.lowRisk)
  }

  /** Every limit of the policy is kept, and neither a regression nor weakened tests are reported. */
  ghost predicate WithinLimits(p: Policy, r: Request) {
    && !r.regression && !r.testWeakening && r.attempt <= p.maxAttempts && |r.paths| <= p.maxChangedFiles
    && r.changedLines <= p.maxChangedLines && r.cost <= p.maxCost && r.elapsed <= p.maxElapsed
  }

  /** Each authority, from the request. */
  ghost predicate AuthorityAnswers(p: Policy, r: Request, a: Authority) {
    var severe, sensitive := r.securityFinding || Touches(r.paths, p.isCritical), Touches(r.paths, p.isProtected);
    var routine := !r.unknownFailure && r.failureClass in p.lowRisk;
    && (a.AutonomousPatch? <==> WithinLimits(p, r) && !severe && !sensitive && routine)
    && (a.PatchRequiresReview? <==> WithinLimits(p, r) && !severe && !sensitive && !routine)
    && (a.RcaOnly? <==> WithinLimits(p, r) && !severe && sensitive)
    && (a.Deny? <==> !WithinLimits(p, r) || severe)
  }

  method ClassifyRequest(p: Policy, r: Request) returns (risk: Risk)
    ensures risk == ClassifyRisk(p, r)
  {
    var critical := AnyPath(r.paths, p.isCritical);
    if r.securityFinding || critical {
      return Critical;
    }
    var sensitive := AnyPath(r.paths, p.isProtected);
    if sensitive {
      return High;
    }
    risk := if r.unknownFailure || r.failureClass !in p.lowRisk then Medium else Low;
  }

  method EvaluateRepair(p: Policy, r: Request) returns (risk: Risk, a: Authority)
    ensures risk == ClassifyRisk(p, r) && a == Authorize(p, r)
    ensures RiskAnswers(p, r, risk) && AuthorityAnswers(p, r, a)
  {
    risk := ClassifyRequest(p, r);
    if Disqualified(p, r) {
      return risk, Deny;
    }
    match risk {
      case Critical => a := Deny;
      case High => a := RcaOnly;
      case Medium => a := PatchRequiresReview;
      case Low => a := AutonomousPatch;
    }
  }

  /** What the coordinator asks for the next attempt at a check. */
  function RequestFor(c: Check, attempt: nat, cost: real, elapsed: int): Request {
    Request(c.paths, c.failureClass, 0, attempt, cost, elapsed, false, false, false, c.failureClass == "unknown")
  }

  /** The more incriminating request gets no more authority. */
  ghost predicate Worse(r: Request, t: Request) {
    && r.failureClass == t.failureClass && |r.paths| <= |t.paths| && (forall x :: x in r.paths ==> x in t.paths)
    && r.changedLines <= t.changedLines && r.attempt <= t.attempt && r.cost <= t.cost && r.elapsed <= t.elapsed
    && (r.regression ==> t.regression) && (r.securityFinding ==> t.securityFinding)
    && (r.testWeakening ==> t.testWeakening) && (r.unknownFailure ==> t.unknownFailure)
  }

  function Rank(a: Authority): nat {
    match a case Deny => 0 case RcaOnly => 1 case PatchRequiresReview => 2 case AutonomousPatch => 3
  }

  lemma TouchesMore(paths: seq<Path>, more: seq<Path>, f: Path -> bool)
    requires Touches(paths, f) && forall x :: x in paths ==> x in more
    ensures Touches(more, f)
  {
    var i :| 0 <= i < |paths| && f(paths[i]);
    assert paths[i] in more;
  }

  /** More paths, lines, attempts, cost, time or findings never raise the authority. */
  lemma AuthorityShrinks(p: Policy, r: Request, t: Request)
    requires Worse(r, t)
    ensures Rank(Authorize(p, t)) <= Rank(Authorize(p, r))
  {
    if Touches(r.paths, p.isCritical) {
      TouchesMore(r.paths, t.paths, p.isCritical);
    }
    if Touches(r.paths, p.isProtected) {
      TouchesMore(r.paths, t.paths, p.isProtected);
    }
  }

  // ------------------------------------------------------------ single calls

  function Moved(i: Incident, to: RepairState, reason: Reason): Incident {
    var previous := if i.transitions == [] then Genesis else i.transitions[|i.transitions| - 1].digest;
    var n := |i.transitions| + 1;
    i.(state := to,
       transitions := i.transitions
         + [Transition(n, i.state, to, reason, Sha256(i.id, n, i.state, to, reason, previous))])
  }

  datatype WorkerResult = WorkerResult(patchProposed: bool, cost: real, regression: bool, testWeakening: bool,
                                       securityFinding: bool)

  datatype VerificationResult = VerificationResult(
    targeted: bool, fullRegression: bool, policyGate: bool, ciGreen: bool,
    securityGate: bool, testWeakening: bool, regression: bool)
  {
    /** The one definition of a verified repair. */
    predicate Successful() {
      ciGreen && targeted && fullRegression && securityGate && policyGate && !testWeakening && !regression
    }
  }

  datatype Call =
    | Plan
    | Dispatch(hasKey: bool)
    | Accept(worker: WorkerResult)
    | Verify(result: VerificationResult)
    | PrepareRetry
    | Elapse(seconds: int)

  function Planning(i: Incident, authority: Authority): Incident {
    match authority
    case Deny => Moved(i, Denied, DeniedByPolicy)
    case RcaOnly => Moved(i, Escalated, AnalysisOnly)
    case _ => Moved(i, Planned, AuthorityGranted)
  }

  ghost function AfterPlan(p: Policy, i: Incident): Incident {
    Planning(i.(attempt := i.attempt + 1), Authorize(p, RequestFor(i.check, i.attempt + 1, i.cost, i.elapsed)))
  }

  function AfterAccept(i: Incident, r: WorkerResult): Incident {
    var charged := i.(cost := i.cost + r.cost);
    if r.regression || r.testWeakening || r.securityFinding then Moved(charged, Denied, WorkerFailedSafetyGate)
    else if !r.patchProposed then Moved(charged, Escalated, NoPatchProposed)
    else Moved(charged, Verifying, CandidateReady)
  }

  function AfterVerify(i: Incident, r: VerificationResult): Incident {
    if r.testWeakening || r.regression then Moved(i, Denied, UnsafeRepair)
    else if !r.securityGate then Moved(i, Denied, SecurityGateFailed)
    else if !r.targeted || !r.fullRegression then Moved(i, Rerunning, TestsFailed)
    else if !r.policyGate then Moved(i, ReviewRequired, PolicyNeedsReview)
    else if r.Successful() then Moved(i, Green, SuccessPredicateMet)
    else Moved(i, Rerunning, CiStillRed)
  }

  /** A call in the wrong state raises and changes nothing. */
  ghost function After(p: Policy, i: Incident, c: Call): Incident {
    match c
    case Plan => AfterPlan(p, i)
    case Dispatch(hasKey) => if i.state.Planned? && hasKey then Moved(i, Dispatched, TaskDispatched) else i
    case Accept(r) => if i.state.Dispatched? then AfterAccept(i, r) else i
    case Verify(r) => if i.state.Verifying? then AfterVerify(i, r) else i
    case PrepareRetry => if i.state.Rerunning? then Moved(i, Detected, BoundedRetry) else i
    case Elapse(seconds) => i.(elapsed := seconds)
  }

  // ------------------------------------- the same calls, told from their inputs

  /** One transition was added, with its number, its reason and a digest over the one before;
      attempts and cost are what they are said to be, and nothing else changed. */
  ghost predicate Stepped(before: Incident, after: Incident, to: RepairState, reason: Reason, attempt: nat,
                          cost: real) {
    var n := |before.transitions|;
    && after.id == before.id && after.check == before.check && after.elapsed == before.elapsed
    && after.attempt == attempt && after.cost == cost && after.state == to && |after.transitions| == n + 1
    && after.transitions[..n] == before.transitions
    && var last := after.transitions[n];
       && last.sequence == n + 1 && last.from == before.state && last.to == to && last.reason == reason
       && last.digest == Sha256(before.id, n + 1, before.state, to, reason,
                                if n == 0 then Genesis else before.transitions[n - 1].digest)
  }

  /** Planning is refused at a limit or a critical path, and only explains at a protected one. */
  ghost predicate PlanAnswers(p: Policy, before: Incident, after: Incident) {
    var c, n := before.check, before.attempt + 1;
    var barred := n > p.maxAttempts || |c.paths| > p.maxChangedFiles || 0 > p.maxChangedLines
      || before.cost > p.maxCost || before.elapsed > p.maxElapsed || Touches(c.paths, p.isCritical);
    if barred then Stepped(before, after, Denied, DeniedByPolicy, n, before.cost)
    else if Touches(c.paths, p.isProtected) then Stepped(before, after, Escalated, AnalysisOnly, n, before.cost)
    else Stepped(before, after, Planned, AuthorityGranted, n, before.cost)
  }

  ghost predicate DispatchAnswers(before: Incident, hasKey: bool, after: Incident) {
    && (before.state.Planned? && hasKey ==>
          Stepped(before, after, Dispatched, TaskDispatched, before.attempt, before.cost))
    && (!before.state.Planned? || !hasKey ==> after == before)
  }

  /** A finding denies, a missing patch escalates; the worker is paid either way. */
  ghost predicate AcceptAnswers(before: Incident, r: WorkerResult, after: Incident) {
    var flawed, n, cost := r.regression || r.testWeakening || r.securityFinding, before.attempt, before.cost + r.cost;
    && (!before.state.Dispatched? ==> after == before)
    && (before.state.Dispatched? && flawed ==> Stepped(before, after, Denied, WorkerFailedSafetyGate, n, cost))
    && (before.state.Dispatched? && !flawed && !r.patchProposed ==>
          Stepped(before, after, Escalated, NoPatchProposed, n, cost))
    && (before.state.Dispatched? && !flawed && r.patchProposed ==>
          Stepped(before, after, Verifying, CandidateReady, n, cost))
  }

  /** Why a verification ends in each state. */
  ghost predicate VerifyAnswers(before: Incident, r: VerificationResult, after: Incident) {
    var n, cost := before.attempt, before.cost;
    var unsafe, tested := r.testWeakening || r.regression, r.targeted && r.fullRegression;
    && (!before.state.Verifying? ==> after == before)
    && (before.state.Verifying? && unsafe ==> Stepped(before, after, Denied, UnsafeRepair, n, cost))
    && (before.state.Verifying? && !unsafe && !r.securityGate ==>
          Stepped(before, after, Denied, SecurityGateFailed, n, cost))
    && (before.state.Verifying? && !unsafe && r.securityGate && !tested ==>
          Stepped(before, after, Rerunning, TestsFailed, n, cost))
    && (before.state.Verifying? && !unsafe && r.securityGate && tested && !r.policyGate ==>
          Stepped(before, after, ReviewRequired, PolicyNeedsReview, n, cost))
    && (before.state.Verifying? && !unsafe && r.securityGate && tested && r.policyGate && !r.ciGreen ==>
          Stepped(before, after, Rerunning, CiStillRed, n, cost))
    && (before.state.Verifying? && !unsafe && r.securityGate && tested && r.policyGate && r.ciGreen ==>
          Stepped(before, after, Green, SuccessPredicateMet, n, cost))
  }

  ghost predicate RetryAnswers(before: Incident, after: Incident) {
    && (before.state.Rerunning? ==> Stepped(before, after, Detected, BoundedRetry, before.attempt, before.cost))
    && (!before.state.Rerunning? ==> after == before)
  }

  class RepairIncident {
    var value: Incident

    constructor (id: string, check: Check)
      ensures value == Fresh(id, check)
    {
      value := Fresh(id, check);
    }

    method MoveTo(to: RepairState, reason: Reason)
      modifies this
      ensures value == Moved(old(value), to, reason)
      ensures Stepped(old(value), value, to, reason, old(value).attempt, old(value).cost)
    {
      var previous := Genesis;
      if value.transitions != [] {
        previous := value.transitions[|value.transitions| - 1].digest;
      }
      var n := |value.transitions| + 1;
      var digest := Sha256(value.id, n, value.state, to, reason, previous);
      value := value.(transitions := value.transitions + [Transition(n, value.state, to, reason, digest)]);
      value := value.(state := to);
    }
  }

  class RepairCoordinator {
    const policy: Policy

    constructor (policy: Policy)
      ensures this.policy == policy
    {
      this.policy := policy;
    }

    method PlanRepair(incident: RepairIncident)
      modifies incident
      ensures incident.value == After(policy, old(incident.value), Plan)
      ensures PlanAnswers(policy, old(incident.value), incident.value)
    {
      incident.value := incident.value.(attempt := incident.value.attempt + 1);
      var v := incident.value;
      var risk, authority := EvaluateRepair(policy, RequestFor(v.check, v.attempt, v.cost, v.elapsed));
      match authority {
        case Deny => incident.MoveTo(Denied, DeniedByPolicy);
        case RcaOnly => incident.MoveTo(Escalated, AnalysisOnly);
        case _ => incident.MoveTo(Planned, AuthorityGranted);
      }
    }

    method DispatchTask(incident: RepairIncident, hasKey: bool) returns (ok: bool)
      modifies incident
      ensures ok <==> old(incident.value).state.Planned? && hasKey
      ensures incident.value == After(policy, old(incident.value), Dispatch(hasKey))
      ensures DispatchAnswers(old(incident.value), hasKey, incident.value)
    {
      ok := incident.value.state.Planned? && hasKey;
      if ok {
        incident.MoveTo(Dispatched, TaskDispatched);
      }
    }

    method AcceptWorkerResult(incident: RepairIncident, r: WorkerResult) returns (ok: bool)
      modifies incident
      ensures ok <==> old(incident.value).state.Dispatched?
      ensures incident.value == After(policy, old(incident.value), Accept(r))
      ensures AcceptAnswers(old(incident.value), r, incident.value)
    {
      ok := incident.value.state.Dispatched?;
      if ok {
        incident.value := incident.value.(cost := incident.value.cost + r.cost);
        if r.regression || r.testWeakening || r.securityFinding {
          incident.MoveTo(Denied, WorkerFailedSafetyGate);
        } else if !r.patchProposed {
          incident.MoveTo(Escalated, NoPatchProposed);
        } else {
          incident.MoveTo(Verifying, CandidateReady);
        }
      }
    }

    method VerifyRepair(incident: RepairIncident, r: VerificationResult) returns (ok: bool)
      modifies incident
      ensures ok <==> old(incident.value).state.Verifying?
      ensures incident.value == After(policy, old(incident.value), Verify(r))
      ensures VerifyAnswers(old(incident.value), r, incident.value)
    {
      ok := incident.value.state.Verifying?;
      if ok {
        if r.testWeakening || r.regression {
          incident.MoveTo(Denied, UnsafeRepair);
        } else if !r.securityGate {
          incident.MoveTo(Denied, SecurityGateFailed);
        } else if !r.targeted || !r.fullRegression {
          incident.MoveTo(Rerunning, TestsFailed);
        } else if !r.policyGate {
          incident.MoveTo(ReviewRequired, PolicyNeedsReview);
        } else if r.Successful() {
          incident.MoveTo(Green, SuccessPredicateMet);
        } else {
          incident.MoveTo(Rerunning, CiStillRed);
        }
      }
    }

    method PrepareRetry(incident: RepairIncident) returns (ok: bool)
      modifies incident
      ensures ok <==> old(incident.value).state.Rerunning?
      ensures incident.value == After(policy, old(incident.value), Call.PrepareRetry)
      ensures RetryAnswers(old(incident.value), incident.value)
    {
      ok := incident.value.state.Rerunning?;
      if ok {
        incident.MoveTo(Detected, BoundedRetry);
      }
    }

    /** After the ledger has delivered `r`: dispatch and accept, if still awaiting dispatch. */
    method AdvanceDelivered(incident: RepairIncident, r: WorkerResult)
      modifies incident
      ensures incident.value ==
        if old(incident.value).state.Planned?
        then After(policy, After(policy, old(incident.value), Dispatch(true)), Accept(r)) else old(incident.value)
      ensures !old(incident.value).state.Planned? ==> incident.value == old(incident.value)
      ensures old(incident.value).state.Planned? ==> exists sent ::
        DispatchAnswers(old(incident.value), true, sent) && AcceptAnswers(sent, r, incident.value)
    {
      if incident.value.state.Planned? {
        var dispatched := DispatchTask(incident, true);
        ghost var sent := incident.value;
        var accepted := AcceptWorkerResult(incident, r);
        assert DispatchAnswers(old(incident.value), true, sent);
      }
    }
  }

  // ------------------------------------------------------------------- runs

  function Fresh(id: string, check: Check): Incident {
    Incident(id, check, Detected, 0, 0.0, 0, [])
  }

  ghost function AfterAll(p: Policy, start: Incident, calls: seq<Call>): Incident {
    if calls == [] then start else After(p, AfterAll(p, start, calls[..|calls| - 1]), calls[|calls| - 1])
  }

  /** The cost of the last worker result taken in, 0 before the first. */
  ghost function LastCharge(p: Policy, start: Incident, calls: seq<Call>): real {
    if calls == [] then 0.0
    else
      var before, c := calls[..|calls| - 1], calls[|calls| - 1];
      if c.Accept? && AfterAll(p, start, before).state.Dispatched? then c.worker.cost else LastCharge(p, start, before)
  }

  function Entries(ts: seq<Transition>, s: RepairState): nat {
    if ts == [] then 0 else Entries(ts[..|ts| - 1], s) + if ts[|ts| - 1].to == s then 1 else 0
  }

  /** The state is where the last transitions led. */
  ghost predicate TailOk(i: Incident) {
    var ts, n := i.transitions, |i.transitions|;
    && (n == 0 ==> i.state == Detected) && (n > 0 ==> ts[n - 1].to == i.state)
    && (i.state == Dispatched ==> n >= 2 && ts[n - 2].to == Planned)
    && (i.state == Verifying ==> n >= 3 && ts[n - 2].to == Dispatched && ts[n - 3].to == Planned)
  }

  /** Every green entry directly follows planned, dispatched and verifying. */
  ghost predicate GreensEarned(ts: seq<Transition>) {
    var n := |ts| - 1;
    ts == [] ||
    (GreensEarned(ts[..n])
     && (ts[n].to == Green ==>
           (n >= 3 && ts[n - 1].to == Verifying && ts[n - 2].to == Dispatched && ts[n - 3].to == Planned)))
  }

  /** Entries are numbered from one and each digest covers the one before it. */
  ghost predicate Chained(ts: seq<Transition>) {
    var n := |ts| - 1;
    ts == [] ||
    (Chained(ts[..n]) && ts[n].sequence == n + 1 && ts[n].digest.Sha256?
     && ts[n].digest.previous == if n == 0 then Genesis else ts[n - 1].digest)
  }

  ghost predicate CountsOk(p: Policy, i: Incident) {
    var ts := i.transitions;
    && Entries(ts, Planned) <= i.attempt && Entries(ts, Planned) <= p.maxAttempts
    && Entries(ts, Dispatched) + One(i.state == Planned) <= Entries(ts, Planned)
    && Entries(ts, Verifying) + One(i.state == Dispatched) <= Entries(ts, Dispatched)
    && Entries(ts, Green) + One(i.state == Verifying) <= Entries(ts, Verifying)
  }

  function One(b: bool): nat { if b then 1 else 0 }

  ghost predicate NeverSensitive(p: Policy, i: Incident) {
    Entries(i.transitions, Planned) > 0 ==>
      !Touches(i.check.paths, p.isCritical) && !Touches(i.check.paths, p.isProtected)
  }

  ghost predicate CostOk(p: Policy, i: Incident, lastCharge: real) {
    && i.cost <= p.maxCost + lastCharge
    && (i.state == Planned || i.state == Dispatched ==> i.cost <= p.maxCost)
  }

  ghost predicate Inv(p: Policy, i: Incident) {
    TailOk(i) && GreensEarned(i.transitions) && Chained(i.transitions) && CountsOk(p, i) && NeverSensitive(p, i)
  }

  lemma MovedEntries(i: Incident, to: RepairState, reason: Reason, s: RepairState)
    ensures Entries(Moved(i, to, reason).transitions, s) == Entries(i.transitions, s) + One(to == s)
  {
    var ts := Moved(i, to, reason).transitions;
    assert ts[..|ts| - 1] == i.transitions;
  }

  lemma MovedBasics(i: Incident, to: RepairState, reason: Reason)
    requires GreensEarned(i.transitions) && Chained(i.transitions) && TailOk(i)
    requires to == Green ==> i.state == Verifying
    ensures GreensEarned(Moved(i, to, reason).transitions) && Chained(Moved(i, to, reason).transitions)
    ensures to != Dispatched && to != Verifying ==> TailOk(Moved(i, to, reason))
    ensures to == Dispatched && i.state == Planned ==> TailOk(Moved(i, to, reason))
    ensures to == Verifying && i.state == Dispatched ==> TailOk(Moved(i, to, reason))
  {
    var ts := Moved(i, to, reason).transitions;
    assert ts[..|ts| - 1] == i.transitions;
  }

  lemma MoveKeepsInv(p: Policy, i: Incident, to: RepairState, reason: Reason)
    requires Inv(p, i) && to != Planned
    requires to == Green ==> i.state == Verifying
    requires to == Dispatched ==> i.state == Planned
    requires to == Verifying ==> i.state == Dispatched
    ensures Inv(p, Moved(i, to, reason))
  {
    MovedBasics(i, to, reason);
    MovedEntries(i, to, reason, Planned);
    MovedEntries(i, to, reason, Dispatched);
    MovedEntries(i, to, reason, Verifying);
    MovedEntries(i, to, reason, Green);
  }

  lemma PlannedKeepsInv(p: Policy, i: Incident, reason: Reason)
    requires Inv(p, i) && Entries(i.transitions, Planned) < i.attempt <= p.maxAttempts
    requires !Touches(i.check.paths, p.isCritical) && !Touches(i.check.paths, p.isProtected)
    ensures Inv(p, Moved(i, Planned, reason))
  {
    MovedBasics(i, Planned, reason);
    MovedEntries(i, Planned, reason, Planned);
    MovedEntries(i, Planned, reason, Dispatched);
    MovedEntries(i, Planned, reason, Verifying);
    MovedEntries(i, Planned, reason, Green);
  }

  /** What a grant of patch authority implies. */
  ghost predicate GrantSound(p: Policy, c: Check, attempt: nat, authority: Authority) {
    authority.AutonomousPatch? || authority.PatchRequiresReview? ==>
      attempt <= p.maxAttempts && !Touches(c.paths, p.isCritical) && !Touches(c.paths, p.isProtected)
  }

  lemma AuthorizeIsSound(p: Policy, c: Check, attempt: nat, cost: real, elapsed: int)
    ensures GrantSound(p, c, attempt, Authorize(p, RequestFor(c, attempt, cost, elapsed)))
  {
  }

  lemma AttemptKeepsInv(p: Policy, i: Incident)
    requires Inv(p, i)
    ensures Inv(p, i.(attempt := i.attempt + 1)) && Entries(i.transitions, Planned) < i.attempt + 1
  {
  }

  lemma PlanningKeepsInv(p: Policy, i: Incident, authority: Authority)
    requires Inv(p, i) && Entries(i.transitions, Planned) < i.attempt
    requires GrantSound(p, i.check, i.attempt, authority)
    ensures Inv(p, Planning(i, authority))
  {
    match authority
    case Deny => MoveKeepsInv(p, i, Denied, DeniedByPolicy);
    case RcaOnly => MoveKeepsInv(p, i, Escalated, AnalysisOnly);
    case _ => PlannedKeepsInv(p, i, AuthorityGranted);
  }

  lemma AuthorizedPlanKeepsInv(p: Policy, i: Incident, authority: Authority)
    requires Inv(p, i) && GrantSound(p, i.check, i.attempt + 1, authority)
    ensures Inv(p, Planning(i.(attempt := i.attempt + 1), authority))
  {
    AttemptKeepsInv(p, i);
    PlanningKeepsInv(p, i.(attempt := i.attempt + 1), authority);
  }

  lemma PlanKeepsInv(p: Policy, i: Incident)
    requires Inv(p, i)
    ensures Inv(p, AfterPlan(p, i))
  {
    var authority := Authorize(p, RequestFor(i.check, i.attempt + 1, i.cost, i.elapsed));
    assert AfterPlan(p, i) == Planning(i.(attempt := i.attempt + 1), authority);
    AuthorizeIsSound(p, i.check, i.attempt + 1, i.cost, i.elapsed);
    AuthorizedPlanKeepsInv(p, i, authority);
  }

  lemma ChargeKeepsInv(p: Policy, i: Incident, cost: real)
    requires Inv(p, i)
    ensures Inv(p, i.(cost := i.cost + cost))
  {
  }

  /** Where an accepted worker result moves the incident. */
  lemma AcceptMoves(i: Incident, r: WorkerResult)
    ensures var charged, after := i.(cost := i.cost + r.cost), AfterAccept(i, r);
      || after == Moved(charged, Denied, WorkerFailedSafetyGate) || after == Moved(charged, Escalated, NoPatchProposed)
      || after == Moved(charged, Verifying, CandidateReady)
  {
  }

  /** Each of the three moves is one of a dispatched incident. */
  lemma ChargedMovesKeepInv(p: Policy, i: Incident)
    requires Inv(p, i) && i.state.Dispatched?
    ensures Inv(p, Moved(i, Denied, WorkerFailedSafetyGate)) && Inv(p, Moved(i, Escalated, NoPatchProposed))
    ensures Inv(p, Moved(i, Verifying, CandidateReady))
  {
    MoveKeepsInv(p, i, Denied, WorkerFailedSafetyGate);
    MoveKeepsInv(p, i, Escalated, NoPatchProposed);
    MoveKeepsInv(p, i, Verifying, CandidateReady);
  }

  lemma AcceptKeepsInv(p: Policy, i: Incident, r: WorkerResult)
    requires Inv(p, i) && i.state.Dispatched?
    ensures Inv(p, AfterAccept(i, r))
  {
    AcceptMoves(i, r);
    ChargeKeepsInv(p, i, r.cost);
    ChargedMovesKeepInv(p, i.(cost := i.cost + r.cost));
  }

  lemma VerifyKeepsInv(p: Policy, i: Incident, r: VerificationResult)
    requires Inv(p, i) && i.state.Verifying?
    ensures Inv(p, AfterVerify(i, r))
  {
    var to, reason := AfterVerify(i, r).state, AfterVerify(i, r).transitions[|i.transitions|].reason;
    MoveKeepsInv(p, i, to, reason);
  }

  lemma CallKeepsInv(p: Policy, i: Incident, c: Call)
    requires Inv(p, i) && p.Valid()
    ensures Inv(p, After(p, i, c))
  {
    match c
    case Plan => PlanKeepsInv(p, i);
    case Dispatch(hasKey) =>
      if i.state.Planned? && hasKey { MoveKeepsInv(p, i, Dispatched, TaskDispatched); }
    case Accept(r) =>
      if i.state.Dispatched? { AcceptKeepsInv(p, i, r); }
    case Verify(r) =>
      if i.state.Verifying? { VerifyKeepsInv(p, i, r); }
    case PrepareRetry =>
      if i.state.Rerunning? { MoveKeepsInv(p, i, Detected, BoundedRetry); }
    case Elapse(_) =>
  }

  /** For every order of coordinator calls on a fresh incident: the counts of
      entries, the ancestry of every green entry, the digest chain, and no plan
      for a check that touches a protected or critical path. */
  lemma {:induction false} EveryRunKeepsInv(p: Policy, id: string, check: Check, calls: seq<Call>)
    requires p.Valid()
    ensures Inv(p, AfterAll(p, Fresh(id, check), calls))
    ensures AfterAll(p, Fresh(id, check), calls).check == check
  {
    if calls != [] {
      var before := AfterAll(p, Fresh(id, check), calls[..|calls| - 1]);
      EveryRunKeepsInv(p, id, check, calls[..|calls| - 1]);
      CallKeepsInv(p, before, calls[|calls| - 1]);
      CallKeepsCheck(p, before, calls[|calls| - 1]);
    }
  }

  lemma CallKeepsCheck(p: Policy, i: Incident, c: Call)
    ensures After(p, i, c).check == i.check && After(p, i, c).id == i.id
  {
  }

  /** Spending never exceeds the cost budget by more than the last worker result. */
  lemma {:induction false} SpendingBounded(p: Policy, id: string, check: Check, calls: seq<Call>)
    requires p.Valid()
    ensures CostOk(p, AfterAll(p, Fresh(id, check), calls), LastCharge(p, Fresh(id, check), calls))
  {
    if calls != [] {
      SpendingBounded(p, id, check, calls[..|calls| - 1]);
    }
  }

  /** An incident turns green only through a verification that meets the success definition. */
  lemma GreenMeansSuccessful(p: Policy, i: Incident, c: Call)
    requires After(p, i, c).transitions != i.transitions && After(p, i, c).state == Green
    ensures c.Verify? && c.result.Successful() && i.state == Verifying
    ensures AfterVerify(i, c.result).state == Green <==> c.result.Successful()
  {
  }

  // ------------------------------------------------------------ chain checks

  /** The validation looks at numbers and digest lengths only. */
  ghost predicate ChainAccepted(ts: seq<Transition>) {
    forall k :: 0 <= k < |ts| ==> ts[k].sequence == k + 1 && ts[k].digest.HexLength() == 64
  }

  method VerifyTransitionChain(ts: seq<Transition>) returns (ok: bool)
    ensures ok <==> ChainAccepted(ts)
  {
    var previous := 0;
    for i := 0 to |ts|
      invariant previous == i && forall k :: 0 <= k < i ==> ts[k].sequence == k + 1 && ts[k].digest.HexLength() == 64
    {
      if ts[i].sequence != previous + 1 || ts[i].digest.HexLength() != 64 {
        return false;
      }
      previous := ts[i].sequence;
    }
    ok := true;
  }

  /** Every chain the coordinator builds validates, and so does every chain in which
      somebody rewrote the states and reasons of any of its entries. */
  lemma ChainValidatesEvenIfRewritten(p: Policy, id: string, check: Check, calls: seq<Call>, forged: seq<Transition>)
    requires p.Valid()
    requires var ts := AfterAll(p, Fresh(id, check), calls).transitions;
      |forged| == |ts| && forall k :: 0 <= k < |ts| ==>
        forged[k].sequence == ts[k].sequence && forged[k].digest == ts[k].digest
    ensures ChainAccepted(AfterAll(p, Fresh(id, check), calls).transitions) && ChainAccepted(forged)
  {
    EveryRunKeepsInv(p, id, check, calls);
    ChainedIsAccepted(AfterAll(p, Fresh(id, check), calls).transitions);
  }

  lemma {:induction false} ChainedIsAccepted(ts: seq<Transition>)
    requires Chained(ts)
    ensures ChainAccepted(ts)
  {
    if ts != [] {
      ChainedIsAccepted(ts[..|ts| - 1]);
    }
  }
}
