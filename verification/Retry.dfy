/** The retry decision after a failed attempt. `Decide` looks at the latest
    attempt only; the lemmas say what that implies for the whole history. */
module Retry {
  import opened Options
  import opened Sequences

  type Fingerprint(==, !new)

  datatype Disposition = Recoverable | Transient | Unrecoverable | UnknownDisposition

  datatype SandboxError = EmptyPatch | BinaryPatchRejected | MentionsForbidden(text: string) | OtherError(text: string)

  datatype Reason =
    | PartialProgress | AlternativePlanAvailable | TransientToolFailure | TransientSandboxFailure
    | Success | MaxAttemptsExhausted | IdenticalProposalRepeated | IdenticalFailureRepeated | NoProgress
    | UnrecoverableFailure | InvalidProposal | SecurityBoundaryHit | InsufficientEvidence

  datatype Budget = Budget(maxAttempts: nat, maxIdenticalFailures: nat, maxIdenticalProposals: nat,
                           maxNoProgressAttempts: nat)
  {
    predicate Valid() {
      maxAttempts >= 1 && maxIdenticalFailures >= 1 && maxIdenticalProposals >= 1 && maxNoProgressAttempts >= 1
    }
  }

  datatype Evaluation = Evaluation(passed: bool, patchApplied: bool, targetPassed: bool, forbiddenChanges: bool,
                                   failedChecks: nat)

  datatype Attempt = Attempt(proposal: Fingerprint, failure: Fingerprint, evaluation: Evaluation,
                             sandboxError: Option<SandboxError>, disposition: Disposition, improved: bool)

  datatype Decision = Decision(shouldRetry: bool, reason: Reason, nextAttempt: nat, budgetRemaining: int,
                               progressDetected: bool)

  // --------------------------------------------------------------- progress

  /** Objective signs that an attempt got further than the one before. */
  function Improved(previous: Option<Attempt>, proposal: Fingerprint, failure: Fingerprint, e: Evaluation,
                    sandboxError: Option<SandboxError>): bool
  {
    match previous
    case None => false
    case Some(p) =>
      || (!p.evaluation.targetPassed && e.targetPassed)
      || e.failedChecks < p.evaluation.failedChecks
      || (!p.evaluation.patchApplied && e.patchApplied)
      || (p.sandboxError.Some? && sandboxError.None?)
      || (p.failure != failure && e.failedChecks <= p.evaluation.failedChecks && e.patchApplied
          && (e.failedChecks < p.evaluation.failedChecks || e.targetPassed))
  }

  function BuildAttempt(previous: Option<Attempt>, proposal: Fingerprint, failure: Fingerprint, e: Evaluation,
                        sandboxError: Option<SandboxError>, disposition: Disposition): Attempt
  {
    Attempt(proposal, failure, e, sandboxError, disposition,
            Improved(previous, proposal, failure, e, sandboxError))
  }

  /** Attempt `a` got further than `p`: the target passes now, fewer checks fail, the patch applies
      now, the sandbox error is gone, or the target passes both times, as many checks fail, the
      patch applies and the failure is another one. */
  predicate ProgressOver(p: Attempt, a: Attempt) {
    var was, now := p.evaluation, a.evaluation;
    || (now.targetPassed && !was.targetPassed) || now.failedChecks < was.failedChecks
    || (now.patchApplied && !was.patchApplied) || (a.sandboxError.None? && p.sandboxError.Some?)
    || (now.targetPassed && was.targetPassed && now.failedChecks == was.failedChecks && now.patchApplied
        && a.failure != p.failure)
  }

  lemma BuiltAttempt(previous: Option<Attempt>, proposal: Fingerprint, failure: Fingerprint, e: Evaluation,
                     sandboxError: Option<SandboxError>, disposition: Disposition)
    ensures var a := BuildAttempt(previous, proposal, failure, e, sandboxError, disposition);
      && a == Attempt(proposal, failure, e, sandboxError, disposition, a.improved)
      && (a.improved <==> previous.Some? && ProgressOver(previous.value, a))
  {
  }

  // --------------------------------------------------------------- decision

  function Proposals(h: seq<Attempt>): seq<Fingerprint> {
    seq(|h|, i requires 0 <= i < |h| => h[i].proposal)
  }

  function Failures(h: seq<Attempt>): seq<Fingerprint> {
    seq(|h|, i requires 0 <= i < |h| => h[i].failure)
  }

  /** Trailing attempts without improvement. */
  function Streak(h: seq<Attempt>): nat {
    if h == [] || h[|h| - 1].improved then 0 else 1 + Streak(h[..|h| - 1])
  }

  function Stop(reason: Reason, used: nat, remaining: int, progress: bool): Decision {
    Decision(false, reason, used, remaining, progress)
  }

  function UnrecoverableReason(latest: Attempt, e: Evaluation): Reason {
    match latest.sandboxError
    case Some(EmptyPatch) => InvalidProposal
    case Some(BinaryPatchRejected) => InvalidProposal
    case Some(MentionsForbidden(_)) => SecurityBoundaryHit
    case _ => if e.forbiddenChanges then SecurityBoundaryHit else UnrecoverableFailure
  }

  function Decide(b: Budget, h: seq<Attempt>, e: Evaluation): Decision {
    if h == [] then Decision(false, InsufficientEvidence, 1, b.maxAttempts, false)
    else
      var latest, used := h[|h| - 1], |h|;
      var remaining, progress := if b.maxAttempts >= used then b.maxAttempts - used else 0, latest.improved;
      if e.passed || latest.evaluation.passed then Stop(Success, used, remaining, progress)
      else if used >= b.maxAttempts then Stop(MaxAttemptsExhausted, used, 0, progress)
      else if latest.disposition.Unrecoverable? then Stop(UnrecoverableReason(latest, e), used, remaining, progress)
      else if Count(Proposals(h), latest.proposal) > b.maxIdenticalProposals then
        Stop(IdenticalProposalRepeated, used, remaining, progress)
      else if Count(Failures(h), latest.failure) >= b.maxIdenticalFailures && !progress then
        Stop(IdenticalFailureRepeated, used, remaining, false)
      else if Streak(h) >= b.maxNoProgressAttempts then Stop(NoProgress, used, remaining, false)
      else if progress then Decision(true, PartialProgress, used + 1, remaining - 1, true)
      else if latest.disposition.Transient? then
        Decision(true, if latest.sandboxError.Some? then TransientSandboxFailure else TransientToolFailure,
                 used + 1, remaining - 1, false)
      else if latest.disposition.Recoverable? then
        Decision(true, AlternativePlanAvailable, used + 1, remaining - 1, false)
      else Stop(InsufficientEvidence, used, remaining, progress)
  }

  /** The checks of the engine, by the fields of the latest attempt. */
  ghost predicate Passed(h: seq<Attempt>, e: Evaluation)
    requires h != []
  {
    e.passed || h[|h| - 1].evaluation.passed
  }

  ghost predicate Open(b: Budget, h: seq<Attempt>, e: Evaluation) {
    && h != [] && !Passed(h, e) && |h| < b.maxAttempts && !h[|h| - 1].disposition.Unrecoverable?
  }

  /** Neither the proposal nor the failure of the latest attempt came too often. */
  ghost predicate Varied(b: Budget, h: seq<Attempt>)
    requires h != []
  {
    var latest := h[|h| - 1];
    && Count(Proposals(h), latest.proposal) <= b.maxIdenticalProposals
    && (Count(Failures(h), latest.failure) < b.maxIdenticalFailures || latest.improved)
  }

  /** The latest `n` attempts all failed to improve. */
  ghost predicate StaleFor(h: seq<Attempt>, n: nat) {
    n <= |h| && forall i :: |h| - n <= i < |h| ==> !h[i].improved
  }

  lemma {:induction false} StreakIff(h: seq<Attempt>, n: nat)
    ensures Streak(h) >= n <==> StaleFor(h, n)
  {
    if h != [] && n > 0 {
      StreakIff(h[..|h| - 1], n - 1);
      if StaleFor(h, n) {
        assert StaleFor(h[..|h| - 1], n - 1);
      } else if !h[|h| - 1].improved {
        assert !StaleFor(h[..|h| - 1], n - 1);
      }
    }
  }

  ghost predicate MayRetry(b: Budget, h: seq<Attempt>, e: Evaluation) {
    Open(b, h, e) && Varied(b, h) && !StaleFor(h, b.maxNoProgressAttempts)
  }

  /** A retry is due: it may be made, and the latest attempt got further or its failure invites one. */
  ghost predicate RetryDue(b: Budget, h: seq<Attempt>, e: Evaluation) {
    && MayRetry(b, h, e)
    && (h[|h| - 1].improved || h[|h| - 1].disposition.Transient? || h[|h| - 1].disposition.Recoverable?)
  }

  /** When the answer is to try again, and why. */
  ghost predicate RetryReasons(b: Budget, h: seq<Attempt>, e: Evaluation, retry: bool, reason: Reason) {
    && (reason.PartialProgress? <==> MayRetry(b, h, e) && h[|h| - 1].improved)
    && (reason.TransientSandboxFailure? <==>
          (MayRetry(b, h, e) && !h[|h| - 1].improved && h[|h| - 1].disposition.Transient?
           && h[|h| - 1].sandboxError.Some?))
    && (reason.TransientToolFailure? <==>
          (MayRetry(b, h, e) && !h[|h| - 1].improved && h[|h| - 1].disposition.Transient?
           && h[|h| - 1].sandboxError.None?))
    && (reason.AlternativePlanAvailable? <==>
          MayRetry(b, h, e) && !h[|h| - 1].improved && h[|h| - 1].disposition.Recoverable?)
    && (retry <==> RetryDue(b, h, e))
  }

  /** Why the answer is to stop. */
  ghost predicate StopReasons(b: Budget, h: seq<Attempt>, e: Evaluation, reason: Reason) {
    && (reason.Success? <==> h != [] && Passed(h, e))
    && (reason.MaxAttemptsExhausted? <==> h != [] && !Passed(h, e) && |h| >= b.maxAttempts)
    && (reason.IdenticalProposalRepeated? <==>
          Open(b, h, e) && Count(Proposals(h), h[|h| - 1].proposal) > b.maxIdenticalProposals)
    && (reason.IdenticalFailureRepeated? <==>
          (Open(b, h, e) && Count(Proposals(h), h[|h| - 1].proposal) <= b.maxIdenticalProposals && !Varied(b, h)))
    && (reason.NoProgress? <==> Open(b, h, e) && Varied(b, h) && StaleFor(h, b.maxNoProgressAttempts))
    && (reason.InsufficientEvidence? <==>
          (h == []
           || (MayRetry(b, h, e) && !h[|h| - 1].improved && h[|h| - 1].disposition.UnknownDisposition?)))
  }

  /** How an unrecoverable attempt is named: a bad proposal first, then a forbidden change. */
  ghost predicate UnrecoverableReasons(b: Budget, h: seq<Attempt>, e: Evaluation, reason: Reason) {
    var hopeless :=
      h != [] && !Passed(h, e) && |h| < b.maxAttempts && h[|h| - 1].disposition.Unrecoverable?;
    && (reason.InvalidProposal? <==>
          hopeless && h[|h| - 1].sandboxError in {Some(EmptyPatch), Some(BinaryPatchRejected)})
    && (reason.SecurityBoundaryHit? <==>
          (hopeless && h[|h| - 1].sandboxError !in {Some(EmptyPatch), Some(BinaryPatchRejected)}
           && (e.forbiddenChanges
               || (h[|h| - 1].sandboxError.Some? && h[|h| - 1].sandboxError.value.MentionsForbidden?))))
    && (reason.UnrecoverableFailure? <==>
          (hopeless && !reason.InvalidProposal? && !reason.SecurityBoundaryHit?))
  }

  /** Whether to retry, and every reason exactly when it is given. */
  ghost predicate Justified(b: Budget, h: seq<Attempt>, e: Evaluation, retry: bool, reason: Reason) {
    RetryReasons(b, h, e, retry, reason) && StopReasons(b, h, e, reason) && UnrecoverableReasons(b, h, e, reason)
  }

  /** The numbers that go with the answer. */
  ghost predicate Accounts(b: Budget, h: seq<Attempt>, d: Decision) {
    && d.nextAttempt == (if d.shouldRetry then |h| + 1 else if h == [] then 1 else |h|)
    && d.budgetRemaining == (if d.shouldRetry then b.maxAttempts - |h| - 1
                             else if |h| >= b.maxAttempts then 0 else b.maxAttempts - |h|)
    && (d.progressDetected <==> h != [] && h[|h| - 1].improved && !d.reason.NoProgress?)
  }

  lemma DecisionAnswers(b: Budget, h: seq<Attempt>, e: Evaluation)
    ensures var d := Decide(b, h, e);
      Justified(b, h, e, d.shouldRetry, d.reason) && Accounts(b, h, d)
  {
    StreakIff(h, b.maxNoProgressAttempts);
  }

  method CountOf(list: seq<Fingerprint>) returns (counts: map<Fingerprint, nat>)
    ensures forall f :: (f in counts <==> f in list) && (f in counts ==> counts[f] == Count(list, f))
  {
    counts := map[];
    for i := 0 to |list|
      invariant forall f :: f in counts <==> f in list[..i]
      invariant forall f :: f in counts ==> counts[f] == Count(list[..i], f)
      invariant forall f :: f !in counts ==> Count(list[..i], f) == 0
    {
      var f := list[i];
      assert list[..i + 1] == list[..i] + [f];
      assert forall x :: Count(list[..i + 1], x) == Count(list[..i], x) + if x == f then 1 else 0;
      counts := counts[f := (if f in counts then counts[f] else 0) + 1];
    }
    assert list[..|list|] == list;
  }

  method CountStreak(h: seq<Attempt>) returns (streak: nat)
    ensures streak == Streak(h)
    ensures StaleFor(h, streak) && !StaleFor(h, streak + 1)
  {
    StreakIff(h, Streak(h));
    StreakIff(h, Streak(h) + 1);
    streak := 0;
    var i := |h|;
    assert h[..|h|] == h;
    while i > 0
      invariant 0 <= i <= |h| && streak == |h| - i
      invariant Streak(h) == streak + Streak(h[..i])
    {
      assert h[..i][..i - 1] == h[..i - 1];
      if h[i - 1].improved {
        break;
      }
      streak := streak + 1;
      i := i - 1;
    }
  }

  method DecideRetry(b: Budget, h: seq<Attempt>, e: Evaluation) returns (d: Decision)
    ensures d == Decide(b, h, e)
    ensures Justified(b, h, e, d.shouldRetry, d.reason) && Accounts(b, h, d)
  {
    DecisionAnswers(b, h, e);
    d := ComputeRetry(b, h, e);
  }

  method ComputeRetry(b: Budget, h: seq<Attempt>, e: Evaluation) returns (d: Decision)
    ensures d == Decide(b, h, e)
  {
    if h == [] {
      return Decision(false, InsufficientEvidence, 1, b.maxAttempts, false);
    }
    var latest, used := h[|h| - 1], |h|;
    var remaining, progress := if b.maxAttempts >= used then b.maxAttempts - used else 0, latest.improved;
    if e.passed || latest.evaluation.passed {
      return Stop(Success, used, remaining, progress);
    }
    if used >= b.maxAttempts {
      return Stop(MaxAttemptsExhausted, used, 0, progress);
    }
    if latest.disposition.Unrecoverable? {
      return Stop(UnrecoverableReason(latest, e), used, remaining, progress);
    }
    var proposals := CountOf(Proposals(h));
    assert Proposals(h)[|h| - 1] == latest.proposal && Failures(h)[|h| - 1] == latest.failure;
    if proposals[latest.proposal] > b.maxIdenticalProposals {
      return Stop(IdenticalProposalRepeated, used, remaining, progress);
    }
    var failures := CountOf(Failures(h));
    if failures[latest.failure] >= b.maxIdenticalFailures && !progress {
      return Stop(IdenticalFailureRepeated, used, remaining, false);
    }
    var streak := CountStreak(h);
    if streak >= b.maxNoProgressAttempts {
      return Stop(NoProgress, used, remaining, false);
    }
    if progress {
      return Decision(true, PartialProgress, used + 1, remaining - 1, true);
    }
    if latest.disposition.Transient? {
      return Decision(true, if latest.sandboxError.Some? then TransientSandboxFailure else TransientToolFailure,
                      used + 1, remaining - 1, false);
    }
    if latest.disposition.Recoverable? {
      return Decision(true, AlternativePlanAvailable, used + 1, remaining - 1, false);
    }
    d := Stop(InsufficientEvidence, used, remaining, progress);
  }

  // ------------------------------------------- what it says about a history

  /** The engine allowed a retry after `h`, for some evaluation of its last attempt. */
  ghost predicate RetryAllowed(b: Budget, h: seq<Attempt>) {
    exists e :: Decide(b, h, e).shouldRetry
  }

  /** A retry was allowed after every attempt of `h`. */
  ghost predicate RetriedThroughout(b: Budget, h: seq<Attempt>) {
    forall i :: 1 <= i <= |h| ==> RetryAllowed(b, h[..i])
  }

  lemma RetryAllowedMeans(b: Budget, h: seq<Attempt>)
    requires RetryAllowed(b, h)
    ensures h != [] && |h| < b.maxAttempts && Streak(h) < b.maxNoProgressAttempts
    ensures var latest := h[|h| - 1];
      && !latest.evaluation.passed && !latest.disposition.Unrecoverable?
      && Count(Proposals(h), latest.proposal) <= b.maxIdenticalProposals
      && (Count(Failures(h), latest.failure) >= b.maxIdenticalFailures ==> latest.improved)
  {
  }

  lemma {:induction false} StreakCoversWindow(h: seq<Attempt>, n: nat)
    requires n <= |h| && Streak(h) < n
    ensures exists k :: |h| - n <= k < |h| && h[k].improved
  {
    if !h[|h| - 1].improved {
      StreakCoversWindow(h[..|h| - 1], n - 1);
      var k :| |h| - n <= k < |h| - 1 && h[..|h| - 1][k].improved;
      assert h[k].improved;
    }
  }

  /** No proposal occurs more often than allowed, although each decision counts
      only the proposal it is about. */
  lemma {:induction false} ProposalsBounded(b: Budget, h: seq<Attempt>, f: Fingerprint)
    requires RetriedThroughout(b, h)
    ensures Count(Proposals(h), f) <= b.maxIdenticalProposals
  {
    if h != [] {
      var before := h[..|h| - 1];
      assert Proposals(h)[..|h| - 1] == Proposals(before);
      if h[|h| - 1].proposal == f {
        assert h[..|h|] == h;
        RetryAllowedMeans(b, h);
      } else {
        assert forall i :: 1 <= i <= |before| ==> before[..i] == h[..i];
        ProposalsBounded(b, before, f);
      }
    }
  }

  /** Every window as long as the no-progress limit holds an improved attempt. */
  lemma WindowsProgress(b: Budget, h: seq<Attempt>, start: nat)
    requires RetriedThroughout(b, h) && start + b.maxNoProgressAttempts <= |h| && b.Valid()
    ensures exists k :: start <= k < start + b.maxNoProgressAttempts && h[k].improved
  {
    var end := start + b.maxNoProgressAttempts;
    RetryAllowedMeans(b, h[..end]);
    StreakCoversWindow(h[..end], b.maxNoProgressAttempts);
    var k :| start <= k < end && h[..end][k].improved;
    assert h[k].improved;
  }

  /** From its `maxIdenticalFailures`-th occurrence on, a failure recurs only in improved attempts. */
  lemma RepeatedFailuresImprove(b: Budget, h: seq<Attempt>, i: nat)
    requires RetriedThroughout(b, h) && i < |h|
    requires Count(Failures(h[..i + 1]), h[i].failure) >= b.maxIdenticalFailures
    ensures h[i].improved
  {
    RetryAllowedMeans(b, h[..i + 1]);
  }

  /** A retried history is shorter than the budget and holds no passed or unrecoverable attempt. */
  lemma RetriedHistoryIsOpen(b: Budget, h: seq<Attempt>, i: nat)
    requires RetriedThroughout(b, h) && i < |h|
    ensures |h| < b.maxAttempts && !h[i].evaluation.passed && !h[i].disposition.Unrecoverable?
  {
    RetryAllowedMeans(b, h[..i + 1]);
    assert h[..|h|] == h;
    RetryAllowedMeans(b, h);
  }
}
