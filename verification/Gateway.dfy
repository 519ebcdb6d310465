/** The trust gateway: propose, evaluate policy, execute in a sandbox, verify, and
    retry within a budget. The model, the policy, the clock and the tools are inputs. */
module Gateway {
  import opened Options

  type Fingerprint(==, !new)

  datatype State =
    | Received | Proposed | ContextReady | PolicyEvaluated | ApprovalPending | Denied | SandboxReady
    | Executing | Evaluating | Verifying | RetryableFailure | BudgetExhausted | HumanEscalation | Succeeded

  /** The transition table. */
  predicate Allows(from: State, to: State) {
    match from
    case Received => to.Proposed?
    case Proposed => to.ContextReady? || to.HumanEscalation?
    case ContextReady => to.PolicyEvaluated?
    case PolicyEvaluated => to.ApprovalPending? || to.BudgetExhausted? || to.Denied? || to.SandboxReady?
    case SandboxReady => to.Executing?
    case Executing => to.Evaluating?
    case Evaluating => to.Verifying? || to.RetryableFailure?
    case Verifying => to.Succeeded? || to.RetryableFailure?
    case RetryableFailure => to.Proposed? || to.BudgetExhausted?
    case BudgetExhausted => to.HumanEscalation?
    case _ => false
  }

  /** Where a turn of the gateway's loop starts. */
  predicate AtLoopHead(s: State) { s.Received? || s.RetryableFailure? }

  ghost predicate IsHistory(h: seq<State>) {
    h == [Received] ||
    (|h| >= 2 && Allows(h[|h| - 2], h[|h| - 1]) && IsHistory(h[..|h| - 1]))
  }

  /** The table read by target. */
  predicate Entry(from: State, to: State) {
    match to
    case Received => false
    case Proposed => from == Received || from == RetryableFailure
    case ContextReady => from == Proposed
    case PolicyEvaluated => from == ContextReady
    case ApprovalPending => from == PolicyEvaluated
    case Denied => from == PolicyEvaluated
    case SandboxReady => from == PolicyEvaluated
    case Executing => from == SandboxReady
    case Evaluating => from == Executing
    case Verifying => from == Evaluating
    case RetryableFailure => from == Evaluating || from == Verifying
    case BudgetExhausted => from == PolicyEvaluated || from == RetryableFailure
    case HumanEscalation => from == Proposed || from == BudgetExhausted
    case Succeeded => from == Verifying
  }

  lemma EnteredFrom(from: State, to: State)
    ensures Allows(from, to) <==> Entry(from, to)
  {
  }

  ghost predicate EnteredAt(h: seq<State>, k: nat)
    requires k < |h|
  {
    if k == 0 then h[0] == Received else Entry(h[k - 1], h[k])
  }

  lemma {:induction false} HistoryStep(h: seq<State>, k: nat)
    requires IsHistory(h) && k < |h|
    ensures EnteredAt(h, k)
  {
    if |h| > 1 {
      if k == |h| - 1 {
        EnteredFrom(h[k - 1], h[k]);
      } else {
        HistoryStep(h[..|h| - 1], k);
      }
    }
  }

  /** Nothing executes unless a proposal was just judged by the policy, and nothing succeeds
      unless it was executed, evaluated and verified just before. */
  lemma ExecutedAfterPolicy(h: seq<State>, k: nat)
    requires IsHistory(h) && k < |h|
    ensures h[k] == Executing ==>
      k >= 5 && h[k - 1] == SandboxReady && h[k - 2] == PolicyEvaluated && h[k - 3] == ContextReady
      && h[k - 4] == Proposed
    ensures h[k] == Succeeded ==>
      k >= 8 && h[k - 1] == Verifying && h[k - 2] == Evaluating && h[k - 3] == Executing
  {
    HistoryStep(h, k);
    if h[k] == Executing {
      HistoryStep(h, k - 1);
      HistoryStep(h, k - 2);
      HistoryStep(h, k - 3);
      HistoryStep(h, k - 4);
    } else if h[k] == Succeeded {
      HistoryStep(h, k - 1);
      HistoryStep(h, k - 2);
      ExecutedAfterPolicy(h, k - 3);
    }
  }

  class GatewayStateMachine {
    var state: State
    var history: seq<State>

    ghost predicate Valid()
      reads this
    {
      IsHistory(history) && history[|history| - 1] == state
    }

    constructor ()
      ensures Valid() && state == Received
    {
      state, history := Received, [Received];
    }

    /** An illegal target is refused and changes nothing. */
    method Transition(target: State) returns (ok: bool)
      requires Valid()
      modifies this
      ensures Valid() && (ok <==> Allows(old(state), target))
      ensures ok ==> state == target && history == old(history) + [target]
      ensures !ok ==> state == old(state) && history == old(history)
    {
      ok := Allows(state, target);
      if ok {
        assert (history + [target])[..|history|] == history;
        state := target;
        history := history + [target];
      }
    }

    /** A transition of the gateway itself, none of which is ever refused. */
    method Advance(target: State)
      requires Valid() && Allows(state, target)
      modifies this
      ensures Valid() && state == target && history == old(history) + [target]
    {
      var ok := Transition(target);
    }
  }

  /** A budget's limits and what is used up of it. */
  datatype Purse = Purse(attempts: nat, spent: real, maxAttempts: int, maxCost: real)
  {
    function Less(cost: real): Purse { this.(attempts := attempts + 1, spent := spent + cost) }
  }

  datatype Consumption = Consumed | Exhausted | NegativeCost

  class RetryBudget {
    const maxAttempts: int
    const maxTotalCost: real
    var attempts: nat
    var totalCost: real

    constructor (maxAttempts: int, maxTotalCost: real)
      ensures this.maxAttempts == maxAttempts && this.maxTotalCost == maxTotalCost
      ensures attempts == 0 && totalCost == 0.0
    {
      this.maxAttempts, this.maxTotalCost := maxAttempts, maxTotalCost;
      attempts, totalCost := 0, 0.0;
    }

    ghost function State(): Purse
      reads this
    {
      Purse(attempts, totalCost, maxAttempts, maxTotalCost)
    }

    /** `timeUp`: the wall-time limit has passed. */
    method Consume(cost: real, timeUp: bool) returns (c: Consumption)
      modifies this
      ensures c.NegativeCost? <==> cost < 0.0
      ensures c.Consumed? <==>
        (cost >= 0.0 && !timeUp && old(attempts) < maxAttempts && old(totalCost) + cost <= maxTotalCost)
      ensures c.Consumed? ==> attempts == old(attempts) + 1 && totalCost == old(totalCost) + cost
      ensures !c.Consumed? ==> attempts == old(attempts) && totalCost == old(totalCost)
    {
      if cost < 0.0 {
        return NegativeCost;
      }
      if attempts >= maxAttempts || totalCost + cost > maxTotalCost || timeUp {
        return Exhausted;
      }
      attempts := attempts + 1;
      totalCost := totalCost + cost;
      c := Consumed;
    }
  }

  datatype TrustDecision = Allow | Deny | RequireApproval

  datatype Proposal = Proposal(fingerprint: Fingerprint, explained: bool, cost: real)

  /** Calls that may raise something the gateway does not catch. */
  datatype Fault = Llm | PolicyEngine | Executor | Evaluator | Verifier

  /** What the outside world does in one turn of the loop. */
  datatype Turn = Turn(fault: Option<Fault>, proposal: Proposal, decision: TrustDecision, timeUp: bool,
                       evaluationPasses: bool, verificationPasses: bool)

  datatype Execution = Execution(fingerprint: Fingerprint, decision: TrustDecision)

  datatype Status = VerifiedSuccess | WasDenied | ApprovalRequired | HumanReviewRequired

  datatype RunResult = Finished(status: Status) | Raised

  datatype Progress = Again | Over(result: RunResult)

  function FinalState(s: Status): State {
    match s
    case VerifiedSuccess => Succeeded
    case WasDenied => Denied
    case ApprovalRequired => ApprovalPending
    case HumanReviewRequired => HumanEscalation
  }

  /** How often runs ended in each way. */
  datatype Tally = Tally(denied: nat, pending: nat, escalated: nat, verified: nat)

  function Ended(t: Tally, p: Progress): Tally {
    if p.Over? && p.result.Finished? then
      match p.result.status
      case VerifiedSuccess => t.(verified := t.verified + 1)
      case WasDenied => t.(denied := t.denied + 1)
      case ApprovalRequired => t.(pending := t.pending + 1)
      case HumanReviewRequired => t.(escalated := t.escalated + 1)
    else t
  }

  // ------------------------------------------------ how a turn ends, from its inputs

  /** Executing, evaluating or verifying raises. */
  predicate WorkRaises(t: Turn) {
    t.fault == Some(Executor) || t.fault == Some(Evaluator) || (t.fault == Some(Verifier) && t.evaluationPasses)
  }

  /** Both checks pass. */
  predicate Proven(t: Turn) { t.evaluationPasses && t.verificationPasses }

  predicate Paid(t: Turn, b: Purse) {
    && t.proposal.cost >= 0.0 && !t.timeUp
    && b.attempts < b.maxAttempts && b.spent + t.proposal.cost <= b.maxCost
  }

  /** A proposal made before, or a retry without an explanation. */
  predicate Suspicious(t: Turn, b: Purse, seen: set<Fingerprint>) {
    t.proposal.fingerprint in seen || (b.attempts > 0 && !t.proposal.explained)
  }

  /** A turn's proposal is allowed; `asked` tells whether the policy gave an answer. */
  predicate Allowed(t: Turn, asked: bool) { asked && t.decision == Allow }

  /** The endings of a turn; `raised` tells whether it fell over before its policy answer,
      `suspect` whether it was escalated before. */
  ghost predicate TurnAnswers(t: Turn, b: Purse, raised: bool, suspect: bool, p: Progress) {
    var asked := !raised && !suspect;
    && (p == Over(Finished(WasDenied)) <==> asked && t.decision == Deny)
    && (p == Over(Finished(ApprovalRequired)) <==> asked && t.decision == RequireApproval)
    && (p == Over(Finished(VerifiedSuccess)) <==> Allowed(t, asked) && Paid(t, b) && !WorkRaises(t) && Proven(t))
    && (p == Over(Finished(HumanReviewRequired)) <==>
          (suspect
           || (Allowed(t, asked) && t.proposal.cost >= 0.0
               && (!Paid(t, b) || (!WorkRaises(t) && !Proven(t) && b.attempts + 1 >= b.maxAttempts)))))
    && (p == Over(Raised) <==>
          raised || (Allowed(t, asked) && (t.proposal.cost < 0.0 || (Paid(t, b) && WorkRaises(t)))))
    && (p == Again <==>
          (Allowed(t, asked) && Paid(t, b) && !WorkRaises(t) && !Proven(t) && b.attempts + 1 < b.maxAttempts))
  }

  /** What the gateway counts and does besides the endings. */
  datatype Work = WorkOf(executed: seq<Execution>, purse: Purse, allowed: nat, tools: nat, retries: nat)

  /** What a turn adds. An executor that raises has been called, but is not counted. */
  ghost predicate TurnEffect(t: Turn, asked: bool, before: Work, p: Progress, after: Work) {
    var paid := Allowed(t, asked) && Paid(t, before.purse);
    && after.executed == (if paid then before.executed + [Execution(t.proposal.fingerprint, Allow)]
                          else before.executed)
    && after.purse == (if paid then before.purse.Less(t.proposal.cost) else before.purse)
    && after.allowed == before.allowed + (if Allowed(t, asked) then 1 else 0)
    && after.tools == before.tools + (if paid && t.fault != Some(Executor) then 1 else 0)
    && after.retries == before.retries + (if p == Again then 1 else 0)
  }

  // ------------------------------------------------- how a run ends, from its turns

  /** The cost of the first `k` turns. */
  function CostOf(turn: nat -> Turn, k: nat): real {
    if k == 0 then 0.0 else CostOf(turn, k - 1) + turn(k - 1).proposal.cost
  }

  /** The budget when `k` turns have used it. */
  function PurseAt(turn: nat -> Turn, k: nat, b: Purse): Purse {
    b.(attempts := b.attempts + k, spent := b.spent + CostOf(turn, k))
  }

  predicate Repeats(turn: nat -> Turn, k: nat) {
    exists j: nat :: j < k && turn(j).proposal.fingerprint == turn(k).proposal.fingerprint
  }

  /** A proposal the model made in an earlier turn, or an unexplained retry. */
  predicate Suspect(turn: nat -> Turn, k: nat, b: Purse) {
    turn(k).fault != Some(Llm) && (Repeats(turn, k) || (b.attempts + k > 0 && !turn(k).proposal.explained))
  }

  /** The policy answers in turn `k`. */
  predicate Asked(turn: nat -> Turn, k: nat, b: Purse) {
    turn(k).fault != Some(Llm) && turn(k).fault != Some(PolicyEngine) && !Suspect(turn, k, b)
  }

  /** The proposal of turn `k` is executed: allowed, and within the budget. */
  predicate Executes(turn: nat -> Turn, k: nat, b: Purse) {
    Asked(turn, k, b) && turn(k).decision == Allow && Paid(turn(k), PurseAt(turn, k, b))
  }

  /** Turn `k` is retried: executed without success or error, with attempts left. */
  predicate Retried(turn: nat -> Turn, k: nat, b: Purse) {
    Executes(turn, k, b) && !WorkRaises(turn(k)) && !Proven(turn(k)) && b.attempts + k + 1 < b.maxAttempts
  }

  /** Every turn before `last` was retried, and `last` ended the run. */
  ghost predicate EndsAt(turn: nat -> Turn, last: nat, b: Purse, r: RunResult) {
    var t := turn(last);
    && (forall k: nat :: k < last ==> Retried(turn, k, b))
    && (r == Finished(WasDenied) <==> Asked(turn, last, b) && t.decision == Deny)
    && (r == Finished(ApprovalRequired) <==> Asked(turn, last, b) && t.decision == RequireApproval)
    && (r == Finished(VerifiedSuccess) <==> Executes(turn, last, b) && !WorkRaises(t) && Proven(t))
    && (r == Finished(HumanReviewRequired) <==>
          (Suspect(turn, last, b)
           || (Asked(turn, last, b) && t.decision == Allow && t.proposal.cost >= 0.0
               && (!Executes(turn, last, b)
                   || (!WorkRaises(t) && !Proven(t) && b.attempts + last + 1 >= b.maxAttempts)))))
    && (r == Raised <==>
          (t.fault == Some(Llm) || (t.fault == Some(PolicyEngine) && !Suspect(turn, last, b))
           || (Asked(turn, last, b) && t.decision == Allow && t.proposal.cost < 0.0)
           || (Executes(turn, last, b) && WorkRaises(t))))
  }

  /** The executions are those of the turns, in order; the last turn may have had none. */
  ghost predicate ExecutesTurns(executed: seq<Execution>, turn: nat -> Turn, last: nat, b: Purse) {
    && |executed| == last + (if Executes(turn, last, b) then 1 else 0)
    && forall k: nat :: k < |executed| ==> executed[k] == Execution(turn(k).proposal.fingerprint, Allow)
  }

  class TrustToolGateway {
    const budget: RetryBudget
    var policyAllow: nat
    var policyDeny: nat
    var approvalRequired: nat
    var toolExecution: nat
    var toolFailure: nat
    var retry: nat
    var retryExhaustion: nat
    var humanEscalation: nat
    var verifiedSuccess: nat
    var executed: seq<Execution>       // this run's tool executions, in order

    constructor (budget: RetryBudget)
      ensures this.budget == budget && AllowBalance() == 0 && ToolBalance() == 0 && executed == []
    {
      this.budget := budget;
      policyAllow, policyDeny, approvalRequired, toolExecution, toolFailure := 0, 0, 0, 0, 0;
      retry, retryExhaustion, humanEscalation, verifiedSuccess := 0, 0, 0, 0;
      executed := [];
    }

    /** Allowed proposals not yet accounted for by success, retry or exhaustion. */
    ghost function AllowBalance(): int
      reads this
    {
      policyAllow - verifiedSuccess - retry - retryExhaustion
    }

    ghost function ToolBalance(): int
      reads this
    {
      toolExecution - toolFailure - verifiedSuccess
    }

    ghost function Done(): Work
      reads this, budget
    {
      WorkOf(executed, budget.State(), policyAllow, toolExecution, retry)
    }

    ghost function Endings(): Tally
      reads this
    {
      Tally(policyDeny, approvalRequired, humanEscalation, verifiedSuccess)
    }

    /** Executed fingerprints are distinct, all were allowed, all were proposed before. */
    ghost predicate ExecutionsOk(seen: set<Fingerprint>)
      reads this
    {
      && (forall i :: 0 <= i < |executed| ==> executed[i].fingerprint in seen && executed[i].decision == Allow)
      && (forall i, j :: 0 <= i < j < |executed| ==> executed[i].fingerprint != executed[j].fingerprint)
    }

    method EscalateToHuman(sm: GatewayStateMachine) returns (p: Progress)
      requires sm.Valid() && Allows(sm.state, HumanEscalation)
      modifies this`humanEscalation, sm
      ensures sm.Valid() && sm.state == HumanEscalation && p == Over(Finished(HumanReviewRequired))
      ensures Endings() == Ended(old(Endings()), p)
    {
      sm.Advance(HumanEscalation);
      humanEscalation := humanEscalation + 1;
      p := Over(Finished(HumanReviewRequired));
    }

    method Exhaust(sm: GatewayStateMachine) returns (p: Progress)
      requires sm.Valid() && Allows(sm.state, BudgetExhausted)
      modifies this`humanEscalation, this`retryExhaustion, sm
      ensures sm.Valid() && sm.state == HumanEscalation && p == Over(Finished(HumanReviewRequired))
      ensures retryExhaustion == old(retryExhaustion) + 1
      ensures Endings() == Ended(old(Endings()), p)
    {
      sm.Advance(BudgetExhausted);
      retryExhaustion := retryExhaustion + 1;
      p := EscalateToHuman(sm);
    }

    /** Sandbox execution, evaluation and verification of an allowed proposal. */
    method Execute(t: Turn, sm: GatewayStateMachine) returns (p: Progress)
      requires sm.Valid() && sm.state == PolicyEvaluated && t.decision == Allow
      modifies this`executed, this`toolExecution, this`toolFailure, this`verifiedSuccess, sm
      ensures sm.Valid()
      ensures executed == old(executed) + [Execution(t.proposal.fingerprint, t.decision)]
      ensures p == Over(Raised) <==> WorkRaises(t)
      ensures p == Over(Finished(VerifiedSuccess)) <==> !WorkRaises(t) && Proven(t)
      ensures p == Again <==> !WorkRaises(t) && !Proven(t)
      ensures p == Again ==> sm.state == RetryableFailure
      ensures p.Over? && p.result.Finished? ==> p.result.status == VerifiedSuccess && sm.state == Succeeded
      ensures toolExecution == old(toolExecution) + if t.fault == Some(Executor) then 0 else 1
      ensures p != Over(Raised) ==> ToolBalance() == old(ToolBalance())
      ensures p == Again ==> AllowBalance() == old(AllowBalance())
      ensures p.Over? && p.result.Finished? ==> AllowBalance() == old(AllowBalance()) - 1
      ensures Endings() == Ended(old(Endings()), p)
    {
      sm.Advance(SandboxReady);
      sm.Advance(Executing);
      executed := executed + [Execution(t.proposal.fingerprint, t.decision)];
      if t.fault == Some(Executor) {
        return Over(Raised);
      }
      toolExecution := toolExecution + 1;
      p := Assess(t, sm);
    }

    method Assess(t: Turn, sm: GatewayStateMachine) returns (p: Progress)
      requires sm.Valid() && sm.state == Executing
      modifies this`toolFailure, this`verifiedSuccess, sm
      ensures sm.Valid()
      ensures p == Over(Raised) <==> t.fault == Some(Evaluator) || (t.fault == Some(Verifier) && t.evaluationPasses)
      ensures p == Over(Finished(VerifiedSuccess)) <==> p != Over(Raised) && t.evaluationPasses && t.verificationPasses
      ensures p == Again <==> p != Over(Raised) && !(t.evaluationPasses && t.verificationPasses)
      ensures p == Again ==> sm.state == RetryableFailure
      ensures p.Over? && p.result.Finished? ==> p.result.status == VerifiedSuccess && sm.state == Succeeded
      ensures p != Over(Raised) ==> ToolBalance() == old(ToolBalance()) - 1
      ensures p == Again ==> AllowBalance() == old(AllowBalance())
      ensures p.Over? && p.result.Finished? ==> AllowBalance() == old(AllowBalance()) - 1
      ensures Endings() == Ended(old(Endings()), p)
    {
      sm.Advance(Evaluating);
      if t.fault == Some(Evaluator) {
        return Over(Raised);
      }
      if t.evaluationPasses {
        sm.Advance(Verifying);
        if t.fault == Some(Verifier) {
          return Over(Raised);
        }
        if t.verificationPasses {
          sm.Advance(Succeeded);
          verifiedSuccess := verifiedSuccess + 1;
          return Over(Finished(VerifiedSuccess));
        }
      }
      toolFailure := toolFailure + 1;
      sm.Advance(RetryableFailure);
      p := Again;
    }

    /** Take an allowed proposal through the budget and the sandbox. */
    method Spend(t: Turn, sm: GatewayStateMachine) returns (p: Progress)
      requires sm.Valid() && sm.state == PolicyEvaluated && t.decision == Allow
      modifies this, sm, budget
      ensures sm.Valid() && (p == Again ==> sm.state == RetryableFailure)
      ensures p.Over? && p.result.Finished? ==> sm.state == FinalState(p.result.status)
      ensures p != Over(Raised) ==> AllowBalance() == old(AllowBalance()) && ToolBalance() == old(ToolBalance())
      ensures Endings() == Ended(old(Endings()), p)
      ensures TurnAnswers(t, old(budget.State()), false, false, p)
      ensures TurnEffect(t, true, old(Done()), p, Done())
    {
      policyAllow := policyAllow + 1;
      var c := budget.Consume(t.proposal.cost, t.timeUp);
      if c.NegativeCost? {
        return Over(Raised);
      }
      if c.Exhausted? {
        p := Exhaust(sm);
        return;
      }
      p := Attempt(t, sm);
    }

    /** A paid attempt; a failed one is retried while attempts are left. */
    method Attempt(t: Turn, sm: GatewayStateMachine) returns (p: Progress)
      requires sm.Valid() && sm.state == PolicyEvaluated && t.decision == Allow
      modifies this, sm
      ensures sm.Valid() && (p == Again ==> sm.state == RetryableFailure)
      ensures p.Over? && p.result.Finished? ==> sm.state == FinalState(p.result.status)
      ensures p == Over(Raised) <==> WorkRaises(t)
      ensures p == Over(Finished(VerifiedSuccess)) <==> !WorkRaises(t) && Proven(t)
      ensures p == Over(Finished(HumanReviewRequired)) <==>
        !WorkRaises(t) && !Proven(t) && budget.attempts >= budget.maxAttempts
      ensures p == Again <==> !WorkRaises(t) && !Proven(t) && budget.attempts < budget.maxAttempts
      ensures p != Over(Raised) ==> AllowBalance() == old(AllowBalance()) - 1 && ToolBalance() == old(ToolBalance())
      ensures executed == old(executed) + [Execution(t.proposal.fingerprint, Allow)]
      ensures toolExecution == old(toolExecution) + (if t.fault == Some(Executor) then 0 else 1)
      ensures policyAllow == old(policyAllow) && retry == old(retry) + (if p == Again then 1 else 0)
      ensures Endings() == Ended(old(Endings()), p)
    {
      p := Execute(t, sm);
      if p == Again {
        if budget.attempts >= budget.maxAttempts {
          p := Exhaust(sm);
        } else {
          retry := retry + 1;
        }
      }
    }

    /** One turn of the loop. `Again` means the budget took one more attempt and has some left. */
    method TakeTurn(t: Turn, sm: GatewayStateMachine, seen0: set<Fingerprint>)
      returns (p: Progress, seen: set<Fingerprint>)
      requires sm.Valid() && AtLoopHead(sm.state) && ExecutionsOk(seen0)
      modifies this, sm, budget
      ensures sm.Valid() && ExecutionsOk(seen) && (p == Again ==> sm.state == RetryableFailure)
      ensures p.Over? && p.result.Finished? ==> sm.state == FinalState(p.result.status)
      ensures p != Over(Raised) ==> AllowBalance() == old(AllowBalance()) && ToolBalance() == old(ToolBalance())
      ensures Endings() == Ended(old(Endings()), p)
      ensures TurnTaken(t, seen0, old(Done()), p, Done())
      ensures seen == if t.fault == Some(Llm) || Suspicious(t, old(budget.State()), seen0) then seen0
                      else seen0 + {t.proposal.fingerprint}
    {
      var attemptNumber := budget.attempts + 1;
      seen := seen0;
      if t.fault == Some(Llm) {
        return Over(Raised), seen;
      }
      sm.Advance(Proposed);
      if (attemptNumber > 1 && !t.proposal.explained) || t.proposal.fingerprint in seen {
        p := EscalateToHuman(sm);
        return;
      }
      seen := seen + {t.proposal.fingerprint};
      p := Vet(t, sm);
    }

    /** Policy evaluation of a new proposal, and what follows from it. */
    method Vet(t: Turn, sm: GatewayStateMachine) returns (p: Progress)
      requires sm.Valid() && sm.state == Proposed
      modifies this, sm, budget
      ensures sm.Valid() && (p == Again ==> sm.state == RetryableFailure)
      ensures p.Over? && p.result.Finished? ==> sm.state == FinalState(p.result.status)
      ensures p != Over(Raised) ==> AllowBalance() == old(AllowBalance()) && ToolBalance() == old(ToolBalance())
      ensures Endings() == Ended(old(Endings()), p)
      ensures TurnAnswers(t, old(budget.State()), t.fault == Some(PolicyEngine), false, p)
      ensures TurnEffect(t, t.fault != Some(PolicyEngine), old(Done()), p, Done())
    {
      sm.Advance(ContextReady);
      if t.fault == Some(PolicyEngine) {
        return Over(Raised);
      }
      sm.Advance(PolicyEvaluated);
      match t.decision {
        case Deny =>
          sm.Advance(Denied);
          policyDeny := policyDeny + 1;
          p := Over(Finished(WasDenied));
        case RequireApproval =>
          sm.Advance(ApprovalPending);
          approvalRequired := approvalRequired + 1;
          p := Over(Finished(ApprovalRequired));
        case Allow =>
          p := Spend(t, sm);
      }
    }

    /** The whole run; `turn(k)` is what happens in the k-th turn, `last` the turn that ends it. */
    method Run(turn: nat -> Turn) returns (r: RunResult, sm: GatewayStateMachine, ghost last: nat)
      modifies this, budget
      ensures fresh(sm) && sm.Valid()
      ensures r.Finished? ==> sm.state == FinalState(r.status)
      ensures exists seen :: ExecutionsOk(seen)
      ensures EndsAt(turn, last, old(budget.State()), r)
      ensures ExecutesTurns(executed, turn, last, old(budget.State()))
      ensures retry == old(retry) + last
      ensures Endings() == Ended(old(Endings()), Over(r))
      ensures r.Finished? ==> AllowBalance() == old(AllowBalance()) && ToolBalance() == old(ToolBalance())
      ensures r.Finished? ==> toolExecution == old(toolExecution) + |executed|
      ensures |executed| == budget.attempts - old(budget.attempts)
      ensures budget.totalCost == old(budget.totalCost) + CostOf(turn, |executed|)
      ensures old(budget.totalCost) <= budget.maxTotalCost ==> budget.totalCost <= budget.maxTotalCost
    {
      sm := new GatewayStateMachine();
      var seen: set<Fingerprint> := {};
      var k := 0;
      ghost var start := Done();
      executed := [];
      while true
        invariant sm.Valid() && AtLoopHead(sm.state) && ExecutionsOk(seen) && Endings() == old(Endings())
        invariant AllowBalance() == old(AllowBalance()) && ToolBalance() == old(ToolBalance())
        invariant OnCourse(turn, k, seen, start, Done())
        invariant old(budget.totalCost) <= budget.maxTotalCost ==> budget.totalCost <= budget.maxTotalCost
        decreases budget.maxAttempts - budget.attempts
      {
        var p;
        p, seen := Proceed(turn, k, sm, seen, start);
        if p.Over? {
          return p.result, sm, k;
        }
        k := k + 1;
      }
    }

    /** The `k`-th turn of a run. */
    method Proceed(turn: nat -> Turn, k: nat, sm: GatewayStateMachine, seen0: set<Fingerprint>, ghost start: Work)
      returns (p: Progress, seen: set<Fingerprint>)
      requires sm.Valid() && AtLoopHead(sm.state) && ExecutionsOk(seen0) && OnCourse(turn, k, seen0, start, Done())
      modifies this, sm, budget
      ensures sm.Valid() && ExecutionsOk(seen) && (p == Again ==> sm.state == RetryableFailure)
      ensures p.Over? && p.result.Finished? ==> sm.state == FinalState(p.result.status)
      ensures p != Over(Raised) ==> AllowBalance() == old(AllowBalance()) && ToolBalance() == old(ToolBalance())
      ensures Endings() == Ended(old(Endings()), p)
      ensures old(budget.totalCost) <= budget.maxTotalCost ==> budget.totalCost <= budget.maxTotalCost
      ensures p == Again ==> OnCourse(turn, k + 1, seen, start, Done()) && old(budget.attempts) < budget.attempts
      ensures p == Again ==> budget.attempts < budget.maxAttempts
      ensures p.Over? ==> Arrived(turn, k, start, Done(), p.result)
    {
      ghost var before := Done();
      p, seen := TakeTurn(turn(k), sm, seen0);
      if p == Again {
        StaysOnCourse(turn, k, seen0, start, before, Done());
      } else {
        Arrives(turn, k, seen0, start, before, p, Done());
      }
    }
  }

  /** The loop head after `k` retried turns; `start` is what had been done before the run. */
  ghost predicate OnCourse(turn: nat -> Turn, k: nat, seen: set<Fingerprint>, start: Work, done: Work) {
    && (forall j: nat :: j < k ==> Retried(turn, j, start.purse)) && IsSeen(turn, k, seen)
    && done.purse == PurseAt(turn, k, start.purse)
    && |done.executed| == k && done.retries == start.retries + k && done.tools == start.tools + k
    && forall j: nat :: j < k ==> done.executed[j] == Execution(turn(j).proposal.fingerprint, Allow)
  }

  /** The end of a run in turn `last`. */
  ghost predicate Arrived(turn: nat -> Turn, last: nat, start: Work, done: Work, r: RunResult) {
    && EndsAt(turn, last, start.purse, r) && ExecutesTurns(done.executed, turn, last, start.purse)
    && done.purse == PurseAt(turn, |done.executed|, start.purse) && done.retries == start.retries + last
    && (r.Finished? ==> done.tools == start.tools + |done.executed|)
  }

  ghost predicate IsSeen(turn: nat -> Turn, k: nat, seen: set<Fingerprint>) {
    forall f :: f in seen <==> exists j: nat :: j < k && turn(j).proposal.fingerprint == f
  }

  lemma NextSeen(turn: nat -> Turn, k: nat, seen: set<Fingerprint>)
    requires IsSeen(turn, k, seen)
    ensures IsSeen(turn, k + 1, seen + {turn(k).proposal.fingerprint})
  {
  }

  /** A turn falls over before the policy answers. */
  predicate FallsOver(t: Turn, suspect: bool) {
    t.fault == Some(Llm) || (t.fault == Some(PolicyEngine) && !suspect)
  }

  /** A turn ended and had its effect as its proposal, the budget and the fingerprints seen demand. */
  ghost predicate TurnTaken(t: Turn, seen: set<Fingerprint>, before: Work, p: Progress, after: Work) {
    var suspect := t.fault != Some(Llm) && Suspicious(t, before.purse, seen);
    && TurnAnswers(t, before.purse, FallsOver(t, suspect), suspect, p)
    && TurnEffect(t, !FallsOver(t, suspect) && !suspect, before, p, after)
  }

  /** A retried turn leads to the next loop head. */
  lemma StaysOnCourse(turn: nat -> Turn, k: nat, seen: set<Fingerprint>, start: Work, before: Work, after: Work)
    requires OnCourse(turn, k, seen, start, before) && TurnTaken(turn(k), seen, before, Again, after)
    ensures OnCourse(turn, k + 1, seen + {turn(k).proposal.fingerprint}, start, after)
  {
    TurnEnds(turn, k, start.purse, seen, Again);
    NextSeen(turn, k, seen);
  }

  /** Any other turn ends the run. */
  lemma Arrives(turn: nat -> Turn, k: nat, seen: set<Fingerprint>, start: Work, before: Work, p: Progress, after: Work)
    requires OnCourse(turn, k, seen, start, before) && TurnTaken(turn(k), seen, before, p, after) && p.Over?
    ensures Arrived(turn, k, start, after, p.result)
  {
    TurnEnds(turn, k, start.purse, seen, p);
  }

  /** The endings of a turn are those of the run's turn. */
  lemma TurnEnds(turn: nat -> Turn, k: nat, b: Purse, seen: set<Fingerprint>, p: Progress)
    requires IsSeen(turn, k, seen) && forall j: nat :: j < k ==> Retried(turn, j, b)
    requires
      var suspect := turn(k).fault != Some(Llm) && Suspicious(turn(k), PurseAt(turn, k, b), seen);
      TurnAnswers(turn(k), PurseAt(turn, k, b), FallsOver(turn(k), suspect), suspect, p)
    ensures Suspect(turn, k, b) <==>
      turn(k).fault != Some(Llm) && Suspicious(turn(k), PurseAt(turn, k, b), seen)
    ensures p == Again <==> Retried(turn, k, b)
    ensures p.Over? ==> EndsAt(turn, k, b, p.result)
  {
    assert turn(k).proposal.fingerprint in seen <==> Repeats(turn, k);
  }
}
