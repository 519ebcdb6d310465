/** The foundation workflow: its statuses, its transition table and the tracker
    that records every transition. */
module StateMachine {

  datatype RunStatus =
    | Received | ContextReady | Classified | Planned | Executing | ProposalReady
    | SandboxRunning | Evaluating | Evaluated | RetryDecision | Retrying | PolicyReview
    | Escalated | EscalationBuilding | Approved | Rejected | AwaitingHuman
    | EscalationError | Succeeded | Failed

  /** The transition table. */
  predicate Allows(from: RunStatus, to: RunStatus) {
    match from
    case Received => to.ContextReady? || to.Failed?
    case ContextReady => to.Classified? || to.Failed?
    case Classified => to.Planned? || to.Failed?
    case Planned => to.Executing? || to.Failed?
    case Executing => to.ProposalReady? || to.Failed?
    case ProposalReady => to.SandboxRunning? || to.Failed?
    case SandboxRunning => to.Evaluating? || to.Failed?
    case Evaluating => to.Evaluated? || to.Failed?
    case Evaluated => to.PolicyReview? || to.RetryDecision? || to.Failed?
    case RetryDecision => to.Retrying? || to.Failed?
    case Retrying => to.Planned? || to.Failed?
    case PolicyReview => to.Approved? || to.Rejected? || to.Escalated? || to.Failed?
    case Escalated => to.EscalationBuilding? || to.EscalationError? || to.Failed?
    case EscalationBuilding => to.AwaitingHuman? || to.EscalationError? || to.Failed?
    case AwaitingHuman => to.Approved? || to.Rejected? || to.Failed?
    case _ => false
  }

  /** The table read by target: what every status is entered from. */
  lemma EnteredFrom(from: RunStatus, to: RunStatus)
    ensures Allows(from, to) <==> if to.Failed? then !Closing(from) else Entry(from, to)
  {
  }

  predicate Closing(s: RunStatus) {
    s.Failed? || s.Approved? || s.Rejected? || s.EscalationError? || s.Succeeded?
  }

  predicate Entry(from: RunStatus, to: RunStatus) {
    match to
    case Received => false
    case ContextReady => from == Received
    case Classified => from == ContextReady
    case Planned => from == Classified || from == Retrying
    case Executing => from == Planned
    case ProposalReady => from == Executing
    case SandboxRunning => from == ProposalReady
    case Evaluating => from == SandboxRunning
    case Evaluated => from == Evaluating
    case RetryDecision => from == Evaluated
    case Retrying => from == RetryDecision
    case PolicyReview => from == Evaluated
    case Escalated => from == PolicyReview
    case EscalationBuilding => from == Escalated
    case Approved => from == PolicyReview || from == AwaitingHuman
    case Rejected => from == PolicyReview || from == AwaitingHuman
    case AwaitingHuman => from == EscalationBuilding
    case EscalationError => from == Escalated || from == EscalationBuilding
    case Succeeded => false
    case Failed => false
  }

  /** The statuses visited, in order. */
  ghost predicate IsWalk(p: seq<RunStatus>) {
    p != [] && (|p| > 1 ==> Allows(p[0], p[1]) && IsWalk(p[1..]))
  }

  lemma {:induction false} WalkStep(p: seq<RunStatus>, i: nat)
    requires IsWalk(p) && i + 1 < |p|
    ensures Allows(p[i], p[i + 1])
  {
    if i > 0 {
      WalkStep(p[1..], i - 1);
    }
  }

  /** Where the policy has been asked. */
  predicate AfterReview(s: RunStatus) {
    || s.PolicyReview? || s.Escalated? || s.EscalationBuilding? || s.AwaitingHuman?
    || s.Approved? || s.Rejected? || s.EscalationError?
  }

  /** Nothing is decided before a planned proposal went through the sandbox and the evaluation
      and from there straight into the policy review. */
  lemma {:induction false} DecidedAfterReview(p: seq<RunStatus>, k: nat) returns (i: nat)
    requires IsWalk(p) && p[0] == Received && k < |p| && AfterReview(p[k])
    ensures 6 <= i <= k && p[i] == PolicyReview && p[i - 1] == Evaluated && p[i - 2] == Evaluating
    ensures p[i - 3] == SandboxRunning && p[i - 4] == ProposalReady && p[i - 5] == Executing && p[i - 6] == Planned
    ensures forall j :: i <= j <= k ==> AfterReview(p[j])
    decreases k
  {
    EnteredStepwise(p, k);
    if p[k] == PolicyReview {
      i := k;
      forall j | 1 <= j <= k ensures EnteredAt(p, j) {
        EnteredStepwise(p, j);
      }
      assert EnteredAt(p, i) && EnteredAt(p, i - 1) && EnteredAt(p, i - 2);
      assert EnteredAt(p, i - 3) && EnteredAt(p, i - 4) && EnteredAt(p, i - 5);
    } else {
      i := DecidedAfterReview(p, k - 1);
    }
  }

  ghost predicate EnteredAt(p: seq<RunStatus>, k: nat)
    requires 1 <= k < |p|
  {
    p[k].Failed? || Entry(p[k - 1], p[k])
  }

  lemma EnteredStepwise(p: seq<RunStatus>, k: nat)
    requires IsWalk(p) && p[0] == Received && k < |p| && k > 0
    ensures EnteredAt(p, k)
  {
    WalkStep(p, k - 1);
    EnteredFrom(p[k - 1], p[k]);
  }

  /** How often the walk takes the edge back to planning. */
  ghost function Retries(p: seq<RunStatus>): nat {
    if |p| < 2 then 0 else (if p[0] == Retrying && p[1] == Planned then 1 else 0) + Retries(p[1..])
  }

  /** The most steps a walk from `s` can still take, eight per retry not counted. */
  function StepsLeft(s: RunStatus): nat {
    match s
    case Received => 13
    case ContextReady => 12
    case Classified => 11
    case Planned => 10
    case Executing => 9
    case ProposalReady => 8
    case SandboxRunning => 7
    case Evaluating => 6
    case Evaluated => 5
    case RetryDecision => 4
    case PolicyReview => 4
    case Retrying => 3
    case Escalated => 3
    case EscalationBuilding => 2
    case AwaitingHuman => 1
    case _ => 0
  }

  /** A walk with `k` retries has at most `13 + 8k` steps. */
  lemma {:induction false} WalkLength(p: seq<RunStatus>)
    requires IsWalk(p)
    ensures |p| - 1 <= StepsLeft(p[0]) + 8 * Retries(p) <= 13 + 8 * Retries(p)
  {
    if |p| > 1 {
      WalkLength(p[1..]);
    }
  }

  /** The longest continuation from `Planned` with `k` retries. */
  function WorstFromPlanned(k: nat): seq<RunStatus> {
    [Planned, Executing, ProposalReady, SandboxRunning, Evaluating, Evaluated] +
    if k == 0 then [PolicyReview, Escalated, EscalationBuilding, AwaitingHuman, Approved]
    else [RetryDecision, Retrying] + WorstFromPlanned(k - 1)
  }

  lemma PrependStep(s: RunStatus, p: seq<RunStatus>)
    requires IsWalk(p) && Allows(s, p[0])
    ensures IsWalk([s] + p)
    ensures Retries([s] + p) == Retries(p) + if s == Retrying && p[0] == Planned then 1 else 0
  {
    assert ([s] + p)[1..] == p;
  }

  lemma {:induction false} WorstFromPlannedIsWalk(k: nat)
    ensures IsWalk(WorstFromPlanned(k)) && WorstFromPlanned(k)[0] == Planned
    ensures Retries(WorstFromPlanned(k)) == k && |WorstFromPlanned(k)| == 11 + 8 * k
  {
    if k == 0 {
      PrependPlan([PolicyReview, Escalated, EscalationBuilding, AwaitingHuman, Approved]);
    } else {
      WorstFromPlannedIsWalk(k - 1);
      PrependPlan([RetryDecision, Retrying] + WorstFromPlanned(k - 1));
    }
  }

  lemma PrependPlan(p: seq<RunStatus>)
    requires IsWalk(p) && (p[0] == PolicyReview || p[0] == RetryDecision)
    ensures var q := [Planned, Executing, ProposalReady, SandboxRunning, Evaluating, Evaluated] + p;
      IsWalk(q) && Retries(q) == Retries(p)
  {
    var q := [Evaluated] + p;
    PrependStep(Evaluated, p);
    PrependStep(Evaluating, q);
    q := [Evaluating] + q;
    PrependStep(SandboxRunning, q);
    q := [SandboxRunning] + q;
    PrependStep(ProposalReady, q);
    q := [ProposalReady] + q;
    PrependStep(Executing, q);
    q := [Executing] + q;
    PrependStep(Planned, q);
    q := [Planned] + q;
    assert q == [Planned, Executing, ProposalReady, SandboxRunning, Evaluating, Evaluated] + p;
  }

  /** The bound is reached for every number of retries. */
  lemma WalkLengthIsTight(k: nat) returns (p: seq<RunStatus>)
    ensures IsWalk(p) && p[0] == Received && Retries(p) == k && |p| - 1 == 13 + 8 * k
  {
    WorstFromPlannedIsWalk(k);
    p := WorstFromPlanned(k);
    PrependStep(Classified, p);
    p := [Classified] + p;
    PrependStep(ContextReady, p);
    p := [ContextReady] + p;
    PrependStep(Received, p);
    p := [Received] + p;
  }

  lemma {:induction false} WalkAppend(p: seq<RunStatus>, s: RunStatus)
    requires IsWalk(p) && Allows(p[|p| - 1], s)
    ensures IsWalk(p + [s])
    ensures Retries(p + [s]) == Retries(p) + if p[|p| - 1] == Retrying && s == Planned then 1 else 0
  {
    if |p| == 1 {
      assert p + [s] == [p[0], s] && [p[0], s][1..] == [s];
    } else {
      WalkAppend(p[1..], s);
      assert (p + [s])[1..] == p[1..] + [s];
    }
  }

  /** `history` holds every status the tracker has been in, the current one last. */
  class FoundationStateMachine {
    var status: RunStatus
    var history: seq<RunStatus>

    ghost predicate Valid()
      reads this
    {
      IsWalk(history) && history[|history| - 1] == status
    }

    constructor (initial: RunStatus)
      ensures Valid() && status == initial && history == [initial]
    {
      status, history := initial, [initial];
    }

    /** An illegal transition is refused and changes nothing. */
    method Transition(to: RunStatus) returns (ok: bool)
      requires Valid()
      modifies this
      ensures Valid() && (ok <==> Allows(old(status), to))
      ensures history == if ok then old(history) + [to] else old(history)
      ensures status == if ok then to else old(status)
      ensures Retries(history) ==
        old(Retries(history)) + if old(status) == Retrying && to == Planned then 1 else 0
    {
      ok := Allows(status, to);
      if ok {
        WalkAppend(history, to);
        history := history + [to];
        status := to;
      }
    }
  }
}
