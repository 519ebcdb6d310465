/** The foundation run: a bounded attempt loop over the state machine, the retry
    engine, the policy gate and the journal. Collaborators are scripted inputs and
    may raise; stores do not fail. */
module Runner {
  import opened Options
  import opened Sequences
  import opened StateMachine
  import opened Retry
  import opened Journal
  import opened Recovery
  import opened Persistence

  datatype Collaborator =
    | ContextBuilder | Classifier | Planner | Tool(step: nat) | ProposalFactory | Sandbox | Evaluator
    | AttemptRecorder | RetryEngine | PolicyEngine

  datatype PolicyOutcome = ApproveOutcome | RejectOutcome | EscalateOutcome

  /** What the collaborators do in one attempt; `fault` is the first call that raises. */
  datatype AttemptInput = AttemptInput(
    fault: Option<Collaborator>,
    tools: nat,
    proposal: Fingerprint,
    failure: Fingerprint,
    evaluation: Evaluation,
    sandboxError: Option<SandboxError>,
    disposition: Disposition,
    outcome: PolicyOutcome,
    packageId: Option<string>)     // `None`: building the escalation package fails

  datatype RunResult = AlreadyExists | Finished(status: RunStatus, reason: Reason)

  datatype Verdict = Continue | Stopped(result: RunResult) | Raised

  /** Where a passed attempt ends up. */
  function GateStatus(input: AttemptInput): RunStatus {
    match input.outcome
    case ApproveOutcome => Approved
    case RejectOutcome => Rejected
    case EscalateOutcome => if input.packageId.Some? then AwaitingHuman else EscalationError
  }

  // -------------------------------------- which collaborators are called at all

  predicate PrepareRaises(n: nat, input: AttemptInput) {
    || input.fault == Some(ContextBuilder) || input.fault == Some(Planner)
    || (input.fault == Some(Classifier) && n == 1)
  }

  predicate ToolRaises(input: AttemptInput) {
    input.fault.Some? && input.fault.value.Tool? && input.fault.value.step < input.tools
  }

  /** The tool that raises is not among the first `step`. */
  predicate NotYet(input: AttemptInput, step: nat) {
    ToolRaises(input) ==> step <= input.fault.value.step
  }

  predicate ProduceRaises(input: AttemptInput) {
    || ToolRaises(input) || input.fault == Some(ProposalFactory)
    || input.fault == Some(Sandbox) || input.fault == Some(Evaluator)
  }

  /** Only a passed attempt meets the policy engine, only a failed one the retry engine. */
  predicate JudgeRaises(input: AttemptInput) {
    input.fault == Some(if input.evaluation.passed then PolicyEngine else RetryEngine)
  }

  /** A collaborator raises in attempt `n`. */
  predicate Raises(n: nat, input: AttemptInput) {
    || PrepareRaises(n, input) || ProduceRaises(input)
    || input.fault == Some(AttemptRecorder) || JudgeRaises(input)
  }

  /** How many attempts are on record after attempt `n`. */
  function AttemptsAfter(n: nat, input: AttemptInput): nat
    requires n >= 1
  {
    if PrepareRaises(n, input) || ProduceRaises(input) || input.fault == Some(AttemptRecorder) then n - 1 else n
  }

  // ------------------------------------------------- what the attempts record

  /** Attempt `k` holds what its script entry produced, and measures progress against
      the attempt just before it. */
  ghost predicate RecordOf(h: seq<Attempt>, k: nat, input: AttemptInput)
    requires k < |h|
  {
    && h[k].proposal == input.proposal && h[k].failure == input.failure && h[k].evaluation == input.evaluation
    && h[k].sandboxError == input.sandboxError && h[k].disposition == input.disposition
    && (h[k].improved <==> k > 0 && ProgressOver(h[k - 1], h[k]))
  }

  ghost predicate RecordsOf(h: seq<Attempt>, script: seq<AttemptInput>) {
    |h| <= |script| && forall k :: 0 <= k < |h| ==> RecordOf(h, k, script[k])
  }

  lemma StillRecords(h: seq<Attempt>, later: seq<Attempt>, script: seq<AttemptInput>)
    requires RecordsOf(h, script) && h <= later && |later| <= |h| + 1 && |later| <= |script|
    requires |later| == |h| + 1 ==> RecordOf(later, |h|, script[|h|])
    ensures RecordsOf(later, script)
  {
    forall k | 0 <= k < |later| ensures RecordOf(later, k, script[k]) {
      assert k < |h| ==> RecordOf(h, k, script[k]);
    }
  }

  /** The first `n` attempts raised nothing and each made a retry due. */
  ghost predicate WentOn(b: Budget, h: seq<Attempt>, script: seq<AttemptInput>, n: nat) {
    n <= |h| && n <= |script| && forall k :: 0 <= k < n ==> WentOnAt(b, h, script, k)
  }

  ghost predicate WentOnAt(b: Budget, h: seq<Attempt>, script: seq<AttemptInput>, k: nat)
    requires k < |h| && k < |script|
  {
    !Raises(k + 1, script[k]) && RetryDue(b, h[..k + 1], script[k].evaluation)
  }

  lemma StillWentOn(b: Budget, h: seq<Attempt>, later: seq<Attempt>, script: seq<AttemptInput>, n: nat)
    requires WentOn(b, h, script, n) && h <= later
    ensures WentOn(b, later, script, n)
  {
    forall k | 0 <= k < n ensures WentOnAt(b, later, script, k) {
      assert WentOnAt(b, h, script, k);
      assert later[..k + 1] == h[..k + 1];
    }
  }

  lemma WentOnOnce(b: Budget, h: seq<Attempt>, script: seq<AttemptInput>, n: nat)
    requires WentOn(b, h, script, n) && |h| == n + 1 <= |script|
    requires !Raises(n + 1, script[n]) && RetryDue(b, h, script[n].evaluation)
    ensures WentOn(b, h, script, n + 1)
  {
    assert h[..n + 1] == h;
    assert WentOnAt(b, h, script, n);
  }

  /** What a last attempt without errors makes of the run. */
  ghost predicate Concluded(b: Budget, h: seq<Attempt>, input: AttemptInput, r: RunResult) {
    r.Finished?
    && if input.evaluation.passed then
         && r.reason == Success
         && (r.status.Approved? <==> input.outcome.ApproveOutcome?)
         && (r.status.Rejected? <==> input.outcome.RejectOutcome?)
         && (r.status.AwaitingHuman? <==> input.outcome.EscalateOutcome? && input.packageId.Some?)
         && (r.status.EscalationError? <==> input.outcome.EscalateOutcome? && input.packageId.None?)
       else r.status.Failed? && Justified(b, h, input.evaluation, false, r.reason)
  }

  // ------------------------------------------------------ what the run keeps

  /** The run's evidence: its files, the references its snapshot holds, and the escalation package. */
  datatype Evidence = EvidenceOf(files: set<File>, refs: map<Slot, File>, package: Option<Summary>)
  {
    function Stored(file: File): Evidence { this.(files := files + {file}) }

    function Filed(slot: Slot, file: File): Evidence { this.(files := files + {file}, refs := refs[slot := file]) }
  }

  function PreparedBy(e: Evidence, n: nat): Evidence {
    (if n == 1 then e.Filed(ClassificationSlot, ClassificationFile) else e).Filed(PlanSlot, PlanFile(n))
  }

  function ToolsKept(e: Evidence, n: nat, tools: nat): Evidence {
    if tools == 0 then e else ToolsKept(e, n, tools - 1).Stored(ToolFile(n, tools - 1))
  }

  function ExecutedBy(e: Evidence, n: nat, tools: nat): Evidence {
    ToolsKept(e, n, tools).Stored(PatchFile(n)).Filed(ProposalSlot, ProposalFile(n))
  }

  function ProducedBy(e: Evidence, n: nat, tools: nat): Evidence {
    ExecutedBy(e, n, tools).Stored(SandboxFile(n)).Filed(EvaluationSlot, EvaluationFile(n))
  }

  function MeasuredBy(e: Evidence, n: nat, tools: nat): Evidence {
    ProducedBy(PreparedBy(e, n), n, tools)
  }

  function PackagedBy(e: Evidence, packageId: Option<string>): Evidence {
    if packageId.None? then e
    else e.(refs := e.refs[EscalationSlot := SummaryFile], package := Some(Package(packageId)))
  }

  function JudgedBy(e: Evidence, n: nat, input: AttemptInput): Evidence {
    if !input.evaluation.passed then e.Filed(RetrySlot, RetryFile(n)) else GatedBy(e, input)
  }

  function GatedBy(e: Evidence, input: AttemptInput): Evidence {
    var reviewed := e.Filed(PolicySlot, PolicyFile);
    if input.outcome.EscalateOutcome? then PackagedBy(reviewed, input.packageId) else reviewed
  }

  function AttemptKeeps(e: Evidence, n: nat, input: AttemptInput): Evidence {
    JudgedBy(MeasuredBy(e, n, input.tools).Stored(AttemptFile(n)), n, input)
  }

  lemma {:induction false} ToolFilesKept(e: Evidence, n: nat, tools: nat)
    ensures ToolsKept(e, n, tools).refs == e.refs && ToolsKept(e, n, tools).package == e.package
    ensures e.files <= ToolsKept(e, n, tools).files
    ensures forall step: nat :: step < tools ==> ToolFile(n, step) in ToolsKept(e, n, tools).files
  {
    if tools > 0 {
      ToolFilesKept(e, n, tools - 1);
    }
  }

  /** The files of one attempt. */
  ghost predicate HasFiles(files: set<File>, n: nat, input: AttemptInput) {
    && PlanFile(n) in files && PatchFile(n) in files && ProposalFile(n) in files && SandboxFile(n) in files
    && EvaluationFile(n) in files && AttemptFile(n) in files
    && forall step: nat :: step < input.tools ==> ToolFile(n, step) in files
  }

  /** The files of a retried attempt. */
  ghost predicate RetriedFiles(files: set<File>, script: seq<AttemptInput>, k: nat)
    requires k < |script|
  {
    HasFiles(files, k + 1, script[k]) && RetryFile(k + 1) in files
  }

  /** Where attempt `n` leaves the snapshot's references to its own files. */
  ghost predicate RefsAfter(refs: map<Slot, File>, n: nat, passed: bool) {
    && FailureEventSlot in refs && refs[FailureEventSlot] == FailureEventFile
    && ClassificationSlot in refs && refs[ClassificationSlot] == ClassificationFile
    && PlanSlot in refs && refs[PlanSlot] == PlanFile(n)
    && ProposalSlot in refs && refs[ProposalSlot] == ProposalFile(n)
    && EvaluationSlot in refs && refs[EvaluationSlot] == EvaluationFile(n)
    && (RetrySlot in refs <==> n > 1 || !passed)
    && (RetrySlot in refs ==> refs[RetrySlot] == RetryFile(if passed then n - 1 else n))
    && (PolicySlot in refs <==> passed) && (PolicySlot in refs ==> refs[PolicySlot] == PolicyFile)
    && ReviewerSlot !in refs
  }

  /** Whether there is an escalation package at the end, and that it is this run's own. */
  ghost predicate PackageAfter(before: Option<Summary>, e: Evidence, input: AttemptInput) {
    var packaged := input.evaluation.passed && input.outcome.EscalateOutcome? && input.packageId.Some?;
    && (EscalationSlot in e.refs <==> packaged)
    && (packaged ==> e.refs[EscalationSlot] == SummaryFile && e.package == Some(Package(input.packageId)))
    && (!packaged ==> e.package == before)
  }

  /** The evidence attempt `n` finds: what the attempts before it left. */
  ghost predicate EvidenceBefore(e: Evidence, script: seq<AttemptInput>, n: nat, package: Option<Summary>) {
    && 1 <= n <= |script| + 1 && e.package == package && RefsBefore(e.refs, n)
    && forall k :: 0 <= k < n - 1 ==> RetriedFiles(e.files, script, k)
  }

  /** The evidence of a run whose attempt `n` was its last and raised nothing. */
  ghost predicate EvidenceAfter(e: Evidence, script: seq<AttemptInput>, n: nat, package: Option<Summary>) {
    && 1 <= n <= |script| && RefsAfter(e.refs, n, script[n - 1].evaluation.passed)
    && PackageAfter(package, e, script[n - 1])
    && HasFiles(e.files, n, script[n - 1])
    && forall k :: 0 <= k < n - 1 ==> RetriedFiles(e.files, script, k)
  }

  lemma MeasuredKeeps(e: Evidence, n: nat, tools: nat)
    ensures var m := MeasuredBy(e, n, tools);
      && e.files <= m.files && m.package == e.package
      && m.refs == (if n == 1 then e.refs[ClassificationSlot := ClassificationFile] else e.refs)
                   [PlanSlot := PlanFile(n)][ProposalSlot := ProposalFile(n)][EvaluationSlot := EvaluationFile(n)]
      && PlanFile(n) in m.files && PatchFile(n) in m.files && ProposalFile(n) in m.files && SandboxFile(n) in m.files
      && EvaluationFile(n) in m.files && forall step: nat :: step < tools ==> ToolFile(n, step) in m.files
  {
    ToolFilesKept(PreparedBy(e, n), n, tools);
  }

  /** The references an attempt finds. */
  ghost predicate RefsBefore(refs: map<Slot, File>, n: nat) {
    && n >= 1 && (n == 1 ==> refs == map[FailureEventSlot := FailureEventFile])
    && (n > 1 ==> RefsAfter(refs, n - 1, false) && EscalationSlot !in refs)
  }

  /** The references when an attempt's evaluation is on record. */
  ghost predicate RefsMeasured(refs: map<Slot, File>, n: nat) {
    && FailureEventSlot in refs && refs[FailureEventSlot] == FailureEventFile
    && ClassificationSlot in refs && refs[ClassificationSlot] == ClassificationFile
    && PlanSlot in refs && refs[PlanSlot] == PlanFile(n)
    && ProposalSlot in refs && refs[ProposalSlot] == ProposalFile(n)
    && EvaluationSlot in refs && refs[EvaluationSlot] == EvaluationFile(n)
    && (RetrySlot in refs <==> n > 1) && (RetrySlot in refs ==> refs[RetrySlot] == RetryFile(n - 1))
    && PolicySlot !in refs && EscalationSlot !in refs && ReviewerSlot !in refs
  }

  /** The references when an attempt's plan is on record. */
  ghost predicate RefsPlanned(refs: map<Slot, File>, n: nat) {
    && FailureEventSlot in refs && refs[FailureEventSlot] == FailureEventFile
    && ClassificationSlot in refs && refs[ClassificationSlot] == ClassificationFile
    && PlanSlot in refs && refs[PlanSlot] == PlanFile(n)
    && (RetrySlot in refs <==> n > 1) && (RetrySlot in refs ==> refs[RetrySlot] == RetryFile(n - 1))
    && PolicySlot !in refs && EscalationSlot !in refs && ReviewerSlot !in refs
  }

  lemma PlannedRefs(e: Evidence, n: nat)
    requires RefsBefore(e.refs, n)
    ensures RefsPlanned(PreparedBy(e, n).refs, n)
  {
  }

  lemma EvaluatedRefs(refs: map<Slot, File>, n: nat)
    requires RefsPlanned(refs, n)
    ensures RefsMeasured(refs[ProposalSlot := ProposalFile(n)][EvaluationSlot := EvaluationFile(n)], n)
  {
  }

  lemma MeasuredRefs(e: Evidence, n: nat, tools: nat)
    requires RefsBefore(e.refs, n)
    ensures RefsMeasured(MeasuredBy(e, n, tools).refs, n) && MeasuredBy(e, n, tools).package == e.package
  {
    PlannedRefs(e, n);
    EvaluatedRefs(PreparedBy(e, n).refs, n);
    ToolFilesKept(PreparedBy(e, n), n, tools);
  }

  lemma AttemptRefs(e: Evidence, n: nat, input: AttemptInput)
    requires RefsBefore(e.refs, n)
    ensures RefsAfter(AttemptKeeps(e, n, input).refs, n, input.evaluation.passed)
    ensures PackageAfter(e.package, AttemptKeeps(e, n, input), input)
  {
    MeasuredRefs(e, n, input.tools);
  }

  lemma AttemptFiles(e: Evidence, n: nat, input: AttemptInput)
    ensures var after := AttemptKeeps(e, n, input).files;
      && e.files <= after && HasFiles(after, n, input)
      && (!input.evaluation.passed ==> RetryFile(n) in after)
  {
    MeasuredKeeps(e, n, input.tools);
  }

  lemma OneMoreAttempt(e: Evidence, script: seq<AttemptInput>, n: nat, package: Option<Summary>)
    requires EvidenceBefore(e, script, n, package) && n <= |script|
    ensures EvidenceAfter(AttemptKeeps(e, n, script[n - 1]), script, n, package)
    ensures !script[n - 1].evaluation.passed ==>
      EvidenceBefore(AttemptKeeps(e, n, script[n - 1]), script, n + 1, package)
  {
    AttemptRefs(e, n, script[n - 1]);
    AttemptFiles(e, n, script[n - 1]);
    EvidenceGrown(e, AttemptKeeps(e, n, script[n - 1]), script, n, package);
  }

  lemma EvidenceGrown(e: Evidence, after: Evidence, script: seq<AttemptInput>, n: nat, package: Option<Summary>)
    requires EvidenceBefore(e, script, n, package) && n <= |script|
    requires var input := script[n - 1];
      && RefsAfter(after.refs, n, input.evaluation.passed) && PackageAfter(e.package, after, input)
      && e.files <= after.files && HasFiles(after.files, n, input)
      && (!input.evaluation.passed ==> RetryFile(n) in after.files)
    ensures EvidenceAfter(after, script, n, package)
    ensures !script[n - 1].evaluation.passed ==> EvidenceBefore(after, script, n + 1, package)
  {
    StillKept(e.files, after.files, script, n - 1);
  }

  lemma StillKept(files: set<File>, later: set<File>, script: seq<AttemptInput>, n: nat)
    requires files <= later && n <= |script| && forall k :: 0 <= k < n ==> RetriedFiles(files, script, k)
    ensures forall k :: 0 <= k < n ==> RetriedFiles(later, script, k)
  {
    forall k | 0 <= k < n ensures RetriedFiles(later, script, k) {
      assert RetriedFiles(files, script, k);
    }
  }

  // ------------------------------------ what the journal of a run tells, by kind

  function PrepareStory(n: nat): seq<EventKind> {
    (if n == 1 then [ContextBuilt, FailureClassified] else []) + [AttemptStarted, PlanCreated]
  }

  function ToolStory(tools: nat): seq<EventKind> {
    if tools == 0 then [] else ToolStory(tools - 1) + [ToolCalled, ToolCompleted]
  }

  lemma StopStory(told: seq<EventKind>)
    ensures told + [RetryDecided] + [RetryStopped] + [RunFailed] == told + [RetryDecided, RetryStopped, RunFailed]
  {
  }

  lemma OneMoreTool(begun: seq<EventKind>, tools: nat)
    ensures begun + ToolStory(tools + 1) == begun + ToolStory(tools) + [ToolCalled] + [ToolCompleted]
  {
  }

  function MeasureStory(n: nat, input: AttemptInput): seq<EventKind> {
    PrepareStory(n) + ProduceStory(input)
  }

  function ProduceStory(input: AttemptInput): seq<EventKind> {
    ExecuteStory(input) + [SandboxStarted, SandboxCompleted, EvaluationCompleted]
  }

  function ExecuteStory(input: AttemptInput): seq<EventKind> {
    ToolStory(input.tools) + [ProposalCreated]
  }

  function EscalationStory(packageId: Option<string>): seq<EventKind> {
    [PolicyEscalated] + PackageStory(packageId)
  }

  function PackageStory(packageId: Option<string>): seq<EventKind> {
    if packageId.Some? then [EscalationPackageCreated, AwaitingHumanEvent] else []
  }

  function GateStory(input: AttemptInput): seq<EventKind> {
    match input.outcome
    case ApproveOutcome => [PolicyApproved, RunSucceeded]
    case RejectOutcome => [PolicyRejected]
    case EscalateOutcome => EscalationStory(input.packageId)
  }

  function JudgeStory(input: AttemptInput, retried: bool): seq<EventKind> {
    if input.evaluation.passed then [PolicyReviewStarted] + GateStory(input)
    else if retried then [RetryDecided, RetryStarted]
    else [RetryDecided, RetryStopped, RunFailed]
  }

  /** What one attempt tells, event by event. */
  lemma AttemptTells(n: nat, input: AttemptInput, retried: bool)
    ensures MeasureStory(n, input) + JudgeStory(input, retried) ==
      (if n == 1 then [ContextBuilt, FailureClassified, AttemptStarted, PlanCreated] else [AttemptStarted, PlanCreated])
      + ToolStory(input.tools)
      + [ProposalCreated, SandboxStarted, SandboxCompleted, EvaluationCompleted]
      + LastWords(input, retried)
  {
  }

  function LastWords(input: AttemptInput, retried: bool): seq<EventKind> {
    if !input.evaluation.passed then
      if retried then [RetryDecided, RetryStarted] else [RetryDecided, RetryStopped, RunFailed]
    else match input.outcome
         case ApproveOutcome => [PolicyReviewStarted, PolicyApproved, RunSucceeded]
         case RejectOutcome => [PolicyReviewStarted, PolicyRejected]
         case EscalateOutcome =>
           if input.packageId.None? then [PolicyReviewStarted, PolicyEscalated]
           else [PolicyReviewStarted, PolicyEscalated, EscalationPackageCreated, AwaitingHumanEvent]
  }

  /** A call and its completion per tool. */
  lemma {:induction false} ToolTells(tools: nat, step: nat)
    requires step < tools
    ensures |ToolStory(tools)| == 2 * tools
    ensures ToolStory(tools)[2 * step] == ToolCalled && ToolStory(tools)[2 * step + 1] == ToolCompleted
  {
    if tools > 1 {
      ToolTells(tools - 1, if step < tools - 1 then step else 0);
    }
  }

  /** The journal after the first `k` attempts, all retried. */
  function StoryBefore(script: seq<AttemptInput>, k: nat): seq<EventKind>
    requires k <= |script|
  {
    if k == 0 then [RunCreated]
    else StoryBefore(script, k - 1) + MeasureStory(k, script[k - 1]) + JudgeStory(script[k - 1], true)
  }

  /** The whole journal of a run whose `k`-th attempt was its last. */
  function RunStory(script: seq<AttemptInput>, k: nat): seq<EventKind>
    requires 1 <= k <= |script|
  {
    StoryBefore(script, k - 1) + MeasureStory(k, script[k - 1]) + JudgeStory(script[k - 1], false)
  }

  /** Before a plan is made. */
  predicate Preparing(s: RunStatus) { s.Received? || s.ContextReady? || s.Classified? || s.Retrying? }

  /** From the sandbox run to the evaluation. */
  predicate Measuring(s: RunStatus) { s.SandboxRunning? || s.Evaluating? || s.Evaluated? }

  /** Where a finished run can be. */
  predicate IsFinal(s: RunStatus) {
    s.Approved? || s.Rejected? || s.AwaitingHuman? || s.EscalationError? || s.Failed?
  }

  // --------------------------------------------- a run against its script

  /** Before attempt `n`: the records, the journal and the evidence of attempts that were all retried. */
  ghost predicate OnTrack(b: Budget, h: seq<Attempt>, told: seq<EventKind>, kept: Evidence,
                          script: seq<AttemptInput>, n: nat, package: Option<Summary>) {
    && 1 <= n <= |script| + 1 && RecordsOf(h, script) && WentOn(b, h, script, n - 1)
    && told == StoryBefore(script, n - 1) && EvidenceBefore(kept, script, n, package)
  }

  /** How a run ends whose last attempt is number `last`. Every attempt before it failed and
      made a retry due. If it raises nothing, it is judged: a passed one by the policy, a failed
      one by the retry engine; journal and evidence are complete. If it raises, the run fails
      without a judgement, and nothing recorded before is lost. */
  ghost predicate EndsAs(b: Budget, h: seq<Attempt>, told: seq<EventKind>, kept: Evidence, retries: nat,
                         script: seq<AttemptInput>, last: nat, package: Option<Summary>, r: RunResult) {
    && 1 <= last <= |script| && RecordsOf(h, script) && WentOn(b, h, script, last - 1)
    && |h| == AttemptsAfter(last, script[last - 1])
    && (if Raises(last, script[last - 1]) then
          && r == Finished(StateMachine.Failed, UnrecoverableFailure)
          && StoryBefore(script, last - 1) <= told
          && forall k :: 0 <= k < last - 1 ==> RetriedFiles(kept.files, script, k)
        else
          && Concluded(b, h, script[last - 1], r) && retries == last - 1
          && told == RunStory(script, last) && EvidenceAfter(kept, script, last, package))
  }

  /** What a turn on script entry `n` recorded, told and kept; `over` tells whether it ended the run. */
  ghost predicate TurnMade(h: seq<Attempt>, told: seq<EventKind>, kept: Evidence, n: nat, input: AttemptInput,
                           over: bool, h': seq<Attempt>, told': seq<EventKind>, kept': Evidence)
    requires n >= 1
  {
    && h <= h' && |h| == n - 1 && |h'| == AttemptsAfter(n, input)
    && (|h'| == n ==> RecordOf(h', n - 1, input))
    && told <= told' && kept.files <= kept'.files
    && (!Raises(n, input) ==>
          && told' == told + MeasureStory(n, input) + JudgeStory(input, !over)
          && kept' == AttemptKeeps(kept, n, input))
  }

  lemma GoesOn(b: Budget, h: seq<Attempt>, told: seq<EventKind>, kept: Evidence, script: seq<AttemptInput>, n: nat,
               package: Option<Summary>, h': seq<Attempt>, told': seq<EventKind>, kept': Evidence)
    requires OnTrack(b, h, told, kept, script, n, package) && n <= |script|
    requires TurnMade(h, told, kept, n, script[n - 1], false, h', told', kept')
    requires !Raises(n, script[n - 1]) && !script[n - 1].evaluation.passed
    requires RetryDue(b, h', script[n - 1].evaluation)
    ensures OnTrack(b, h', told', kept', script, n + 1, package)
  {
    StillRecords(h, h', script);
    StillWentOn(b, h, h', script, n - 1);
    WentOnOnce(b, h', script, n - 1);
    OneMoreAttempt(kept, script, n, package);
  }

  lemma Arrives(b: Budget, h: seq<Attempt>, told: seq<EventKind>, kept: Evidence, script: seq<AttemptInput>, n: nat,
                package: Option<Summary>, h': seq<Attempt>, told': seq<EventKind>, kept': Evidence, retries: nat,
                r: RunResult)
    requires OnTrack(b, h, told, kept, script, n, package) && n <= |script|
    requires TurnMade(h, told, kept, n, script[n - 1], true, h', told', kept')
    requires if Raises(n, script[n - 1]) then r == Finished(StateMachine.Failed, UnrecoverableFailure)
             else Concluded(b, h', script[n - 1], r) && retries == n - 1
    ensures EndsAs(b, h', told', kept', retries, script, n, package, r)
  {
    StillRecords(h, h', script);
    StillWentOn(b, h, h', script, n - 1);
    StillKept(kept.files, kept'.files, script, n - 1);
    if !Raises(n, script[n - 1]) {
      OneMoreAttempt(kept, script, n, package);
      Told(told, told', script, n);
    }
  }

  lemma Told(told: seq<EventKind>, told': seq<EventKind>, script: seq<AttemptInput>, n: nat)
    requires 1 <= n <= |script| && told == StoryBefore(script, n - 1)
    requires told' == told + MeasureStory(n, script[n - 1]) + JudgeStory(script[n - 1], false)
    ensures told' == RunStory(script, n)
  {
  }

  class FoundationRun {
    const machine: FoundationStateMachine
    const journal: RunPersistence
    const budget: Budget
    var attempts: seq<Attempt>

    constructor (journal: RunPersistence, budget: Budget)
      ensures this.journal == journal && this.budget == budget && attempts == []
      ensures fresh(machine) && machine.Valid() && machine.history == [Received]
    {
      this.journal, this.budget, attempts := journal, budget, [];
      machine := new FoundationStateMachine(Received);
    }

    ghost predicate Live()
      reads this, machine, journal, journal.dir
    {
      machine.Valid() && journal.Live() && machine.history[0] == Received
    }

    ghost predicate LiveAt(status: RunStatus)
      reads this, machine, journal, journal.dir
    {
      Live() && machine.status == status
    }

    ghost predicate EvaluationLogged()
      reads journal, journal.dir
    {
      Logged(journal.dir.disk, EvaluationCompleted)
    }

    /** The kinds of the events in the journal, in order. */
    ghost function Story(): seq<EventKind>
      reads journal, journal.dir
    {
      Kinds(journal.dir.disk)
    }

    ghost function Kept(): Evidence
      reads journal, journal.dir
    {
      EvidenceOf(journal.dir.disk.files, if journal.durable.Some? then journal.durable.value.refs else map[],
               journal.dir.disk.summary)
    }

    /** Nothing told or kept is lost. */
    ghost predicate Grown(told: seq<EventKind>, kept: Evidence)
      reads journal, journal.dir
    {
      told <= Story() && kept.files <= Kept().files
    }

    ghost function RetryCount(): nat
      reads machine
    {
      Retries(machine.history)
    }

    /** Log an event; with `after` the saved status changes along with it. */
    method Audit(kind: EventKind, after: Option<RunStatus>)
      requires Live() && !IsVerdict(kind)
      modifies journal, journal.dir
      ensures Live() && (kind == EvaluationCompleted || old(EvaluationLogged()) ==> EvaluationLogged())
      ensures journal.dir.disk.summary == old(journal.dir.disk).summary
      ensures after.Some? ==> journal.durable.value.workflow == At(after.value)
      ensures after.None? ==> journal.durable.value.workflow == old(journal.durable).value.workflow
      ensures Story() == old(Story()) + [kind] && Kept() == old(Kept())
    {
      journal.Emit(kind, after);
    }

    method Move(to: RunStatus)
      requires Live() && Allows(machine.status, to)
      modifies machine
      ensures LiveAt(to)
      ensures RetryCount() == old(RetryCount()) + if old(machine.status) == Retrying && to == Planned then 1 else 0
    {
      var ok := machine.Transition(to);
    }

    /** A transition and the audit event that reports it. */
    method Enter(to: RunStatus, kind: EventKind)
      requires Live() && Allows(machine.status, to) && !IsVerdict(kind)
      modifies machine, journal, journal.dir
      ensures LiveAt(to) && (kind == EvaluationCompleted || old(EvaluationLogged()) ==> EvaluationLogged())
      ensures RetryCount() == old(RetryCount()) + if old(machine.status) == Retrying && to == Planned then 1 else 0
      ensures journal.dir.disk.summary == old(journal.dir.disk).summary
      ensures journal.durable.value.workflow == At(to) && Story() == old(Story()) + [kind] && Kept() == old(Kept())
    {
      Move(to);
      Audit(kind, Some(to));
    }

    /** Write an evidence file and save a reference to it with the current status. */
    method Record(slot: Slot, file: File)
      requires Live() && !file.SummaryFile?
      modifies journal, journal.dir
      ensures Live() && journal.dir.disk.log == old(journal.dir.disk).log
      ensures Kept() == old(Kept()).Filed(slot, file)
      ensures journal.dir.disk.summary == old(journal.dir.disk).summary
      ensures journal.durable.value.workflow == At(machine.status)
    {
      Write(file);
      Save(slot, file);
    }

    /** Write an evidence file. */
    method Write(file: File)
      requires Live()
      modifies journal.dir
      ensures Live() && journal.dir.disk == Perform(old(journal.dir.disk), WriteFile(file))
      ensures Kept() == old(Kept()).Stored(file)
    {
      journal.WriteEvidence(file);
    }

    /** Save the current status, and a reference to a file that was written. */
    method Save(slot: Slot, file: File)
      requires Live() && Exists(journal.dir.disk, file)
      modifies journal, journal.dir
      ensures Live() && journal.dir.disk.log == old(journal.dir.disk).log
      ensures journal.dir.disk.summary == old(journal.dir.disk).summary
      ensures journal.durable.value.workflow == At(machine.status)
      ensures Kept() == old(Kept()).(refs := old(Kept()).refs[slot := file])
    {
      ghost var refs := journal.durable.value.refs;
      journal.Checkpoint(Some(machine.status), map[slot := file]);
      assert refs + map[slot := file] == refs[slot := file];
    }

    method SaveStatus()
      requires Live()
      modifies journal, journal.dir
      ensures Live() && journal.dir.disk.log == old(journal.dir.disk).log
      ensures journal.dir.disk.summary == old(journal.dir.disk).summary
      ensures journal.durable.value.workflow == At(machine.status) && Kept() == old(Kept())
    {
      ghost var refs := journal.durable.value.refs;
      journal.Checkpoint(Some(machine.status), map[]);
      assert refs + map[] == refs;
    }

    // -------------------------------------------------- one attempt, in steps

    method Prepare(n: nat, input: AttemptInput) returns (ok: bool)
      requires n >= 1 && LiveAt(if n == 1 then Received else Retrying)
      modifies machine, journal, journal.dir
      ensures Live() && (!ok ==> Preparing(machine.status))
      ensures ok ==> machine.status == Planned && RetryCount() == old(RetryCount()) + if n == 1 then 0 else 1
      ensures RetryCount() <= old(RetryCount()) + if n == 1 then 0 else 1
      ensures ok <==> !PrepareRaises(n, input)
      ensures Grown(old(Story()), old(Kept()))
      ensures ok ==> Story() == old(Story()) + PrepareStory(n) && Kept() == PreparedBy(old(Kept()), n)
    {
      if input.fault == Some(ContextBuilder) {
        return false;
      }
      Assoc(Story(), [ContextBuilt, FailureClassified], [AttemptStarted, PlanCreated]);
      if n == 1 {
        ok := Classify(input);
        if !ok {
          return;
        }
      }
      ok := PlanAttempt(n, input);
    }

    method Classify(input: AttemptInput) returns (ok: bool)
      requires LiveAt(Received)
      modifies machine, journal, journal.dir
      ensures LiveAt(if ok then Classified else ContextReady) && RetryCount() == old(RetryCount())
      ensures ok <==> input.fault != Some(Classifier)
      ensures Grown(old(Story()), old(Kept()))
      ensures ok ==> Story() == old(Story()) + [ContextBuilt, FailureClassified]
      ensures ok ==> Kept() == old(Kept()).Filed(ClassificationSlot, ClassificationFile)
    {
      Assoc(Story(), [ContextBuilt], [FailureClassified]);
      Enter(ContextReady, ContextBuilt);
      if input.fault == Some(Classifier) {
        return false;
      }
      KeepClassification();
      ok := true;
    }

    method KeepClassification()
      requires LiveAt(ContextReady)
      modifies machine, journal, journal.dir
      ensures LiveAt(Classified) && RetryCount() == old(RetryCount())
      ensures Story() == old(Story()) + [FailureClassified]
      ensures Kept() == old(Kept()).Filed(ClassificationSlot, ClassificationFile)
    {
      Move(Classified);
      Record(ClassificationSlot, ClassificationFile);
      Audit(FailureClassified, Some(Classified));
    }

    method PlanAttempt(n: nat, input: AttemptInput) returns (ok: bool)
      requires LiveAt(Classified) || LiveAt(Retrying)
      modifies machine, journal, journal.dir
      ensures LiveAt(if ok then Planned else old(machine.status))
      ensures RetryCount() == old(RetryCount()) + if ok && old(machine.status) == Retrying then 1 else 0
      ensures ok <==> input.fault != Some(Planner)
      ensures Grown(old(Story()), old(Kept()))
      ensures ok ==> Story() == old(Story()) + [AttemptStarted, PlanCreated]
      ensures ok ==> Kept() == old(Kept()).Filed(PlanSlot, PlanFile(n))
    {
      Assoc(Story(), [AttemptStarted], [PlanCreated]);
      AnnounceAttempt(machine.status);
      ok := input.fault != Some(Planner);
      if ok {
        MakePlan(n);
      }
    }

    method AnnounceAttempt(status: RunStatus)
      requires LiveAt(status)
      modifies journal, journal.dir
      ensures LiveAt(status) && Story() == old(Story()) + [AttemptStarted] && Kept() == old(Kept())
    {
      Audit(AttemptStarted, None);
      SaveStatus();
    }

    method MakePlan(n: nat)
      requires LiveAt(Classified) || LiveAt(Retrying)
      modifies machine, journal, journal.dir
      ensures LiveAt(Planned) && Story() == old(Story()) + [PlanCreated]
      ensures Kept() == old(Kept()).Filed(PlanSlot, PlanFile(n))
      ensures RetryCount() == old(RetryCount()) + if old(machine.status) == Retrying then 1 else 0
    {
      Move(Planned);
      Record(PlanSlot, PlanFile(n));
      Audit(PlanCreated, Some(Planned));
    }

    method ExecuteTools(n: nat, input: AttemptInput) returns (ok: bool)
      requires LiveAt(Planned)
      modifies machine, journal, journal.dir
      ensures LiveAt(if ok then ProposalReady else Executing) && RetryCount() == old(RetryCount())
      ensures ok <==> !ToolRaises(input) && input.fault != Some(ProposalFactory)
      ensures Grown(old(Story()), old(Kept()))
      ensures ok ==> Story() == old(Story()) + ExecuteStory(input) && Kept() == ExecutedBy(old(Kept()), n, input.tools)
    {
      Assoc(Story(), ToolStory(input.tools), [ProposalCreated]);
      Move(Executing);
      ok := CallTools(n, input);
      if !ok || input.fault == Some(ProposalFactory) {
        return false;
      }
      Propose(n);
    }

    method Propose(n: nat)
      requires LiveAt(Executing)
      modifies machine, journal, journal.dir
      ensures LiveAt(ProposalReady) && RetryCount() == old(RetryCount())
      ensures Story() == old(Story()) + [ProposalCreated]
      ensures Kept() == old(Kept()).Stored(PatchFile(n)).Filed(ProposalSlot, ProposalFile(n))
    {
      Move(ProposalReady);
      Write(PatchFile(n));
      Record(ProposalSlot, ProposalFile(n));
      Audit(ProposalCreated, Some(ProposalReady));
    }

    method CallTools(n: nat, input: AttemptInput) returns (ok: bool)
      requires LiveAt(Executing)
      modifies journal, journal.dir
      ensures LiveAt(Executing)
      ensures ok <==> !ToolRaises(input)
      ensures Grown(old(Story()), old(Kept()))
      ensures ok ==> Story() == old(Story()) + ToolStory(input.tools)
      ensures ok ==> Kept() == ToolsKept(old(Kept()), n, input.tools)
    {
      ghost var begun, kept := Story(), Kept();
      assert begun + ToolStory(0) == begun;
      for step := 0 to input.tools
        invariant ToolsCalled(begun, kept, n, step)
        invariant NotYet(input, step)
      {
        ok := CallTool(n, input, step, begun, kept);
        if !ok {
          return;
        }
      }
      ok := true;
    }

    /** The first `steps` tools are done; before them the run had told `begun` and kept `kept`. */
    ghost predicate ToolsCalled(begun: seq<EventKind>, kept: Evidence, n: nat, steps: nat)
      reads this, machine, journal, journal.dir
    {
      && LiveAt(Executing) && Grown(begun, kept)
      && Story() == begun + ToolStory(steps) && Kept() == ToolsKept(kept, n, steps)
    }

    method CallTool(n: nat, input: AttemptInput, step: nat, ghost begun: seq<EventKind>, ghost kept: Evidence)
      returns (ok: bool)
      requires ToolsCalled(begun, kept, n, step) && NotYet(input, step) && step < input.tools
      modifies journal, journal.dir
      ensures LiveAt(Executing) && Grown(begun, kept)
      ensures ok ==> ToolsCalled(begun, kept, n, step + 1) && NotYet(input, step + 1)
      ensures !ok ==> ToolRaises(input)
    {
      ToolFilesKept(kept, n, step);
      OneMoreTool(begun, step);
      Audit(ToolCalled, None);
      if input.fault == Some(Tool(step)) {
        return false;
      }
      KeepTool(n, step);
      ok := true;
    }

    method KeepTool(n: nat, step: nat)
      requires LiveAt(Executing)
      modifies journal, journal.dir
      ensures LiveAt(Executing) && Story() == old(Story()) + [ToolCompleted]
      ensures Kept() == old(Kept()).Stored(ToolFile(n, step))
    {
      Write(ToolFile(n, step));
      Audit(ToolCompleted, None);
    }

    method Evaluate(n: nat, input: AttemptInput) returns (ok: bool)
      requires LiveAt(ProposalReady)
      modifies machine, journal, journal.dir
      ensures Live() && Measuring(machine.status) && RetryCount() == old(RetryCount())
      ensures ok ==> machine.status == Evaluated && EvaluationLogged()
      ensures ok <==> input.fault != Some(Sandbox) && input.fault != Some(Evaluator)
      ensures Grown(old(Story()), old(Kept()))
      ensures ok ==> Story() == old(Story()) + [SandboxStarted, SandboxCompleted, EvaluationCompleted]
      ensures ok ==> Kept() == old(Kept()).Stored(SandboxFile(n)).Filed(EvaluationSlot, EvaluationFile(n))
    {
      ok := RunSandbox(n, input);
      if ok {
        ok := RecordEvaluation(n, input);
      }
    }

    method RunSandbox(n: nat, input: AttemptInput) returns (ok: bool)
      requires LiveAt(ProposalReady)
      modifies machine, journal, journal.dir
      ensures LiveAt(SandboxRunning) && RetryCount() == old(RetryCount())
      ensures ok <==> input.fault != Some(Sandbox)
      ensures Grown(old(Story()), old(Kept()))
      ensures ok ==> Story() == old(Story()) + [SandboxStarted, SandboxCompleted]
      ensures ok ==> Kept() == old(Kept()).Stored(SandboxFile(n))
    {
      ghost var told := Story();
      Enter(SandboxRunning, SandboxStarted);
      Assoc(told, [SandboxStarted], [SandboxCompleted]);
      ok := input.fault != Some(Sandbox);
      if ok {
        KeepSandbox(n);
      }
    }

    method KeepSandbox(n: nat)
      requires LiveAt(SandboxRunning)
      modifies journal, journal.dir
      ensures LiveAt(SandboxRunning) && Story() == old(Story()) + [SandboxCompleted]
      ensures Kept() == old(Kept()).Stored(SandboxFile(n))
    {
      Write(SandboxFile(n));
      Audit(SandboxCompleted, None);
    }

    method RecordEvaluation(n: nat, input: AttemptInput) returns (ok: bool)
      requires LiveAt(SandboxRunning)
      modifies machine, journal, journal.dir
      ensures LiveAt(if ok then Evaluated else Evaluating) && RetryCount() == old(RetryCount())
      ensures ok ==> EvaluationLogged()
      ensures ok <==> input.fault != Some(Evaluator)
      ensures Grown(old(Story()), old(Kept()))
      ensures ok ==> Story() == old(Story()) + [EvaluationCompleted]
      ensures ok ==> Kept() == old(Kept()).Filed(EvaluationSlot, EvaluationFile(n))
    {
      Move(Evaluating);
      if input.fault == Some(Evaluator) {
        return false;
      }
      Move(Evaluated);
      Record(EvaluationSlot, EvaluationFile(n));
      Audit(EvaluationCompleted, Some(Evaluated));
      ok := true;
    }

    /** What a result says about the journal it leaves behind. */
    ghost predicate Closed(r: RunResult)
      reads this, machine, journal, journal.dir
    {
      && r.Finished? && LiveAt(r.status)
      && IsFinal(r.status)
      && journal.durable.value.workflow == At(r.status)
      && (r.status == AwaitingHuman ==> journal.dir.disk.summary.Some?)
      && (NeedsEvaluation(At(r.status)) ==> EvaluationLogged())
    }

    method StopRetrying(reason: Reason) returns (r: RunResult)
      requires LiveAt(StateMachine.RetryDecision)
      modifies machine, journal, journal.dir
      ensures Closed(r) && r == Finished(StateMachine.Failed, reason) && RetryCount() == old(RetryCount())
      ensures Story() == old(Story()) + [RetryStopped] + [RunFailed] && Kept() == old(Kept())
    {
      Enter(StateMachine.Failed, RetryStopped);
      r := CloseFailed(reason);
    }

    method CloseFailed(reason: Reason) returns (r: RunResult)
      requires LiveAt(StateMachine.Failed)
      modifies journal, journal.dir
      ensures Closed(r) && r == Finished(StateMachine.Failed, reason)
      ensures Story() == old(Story()) + [RunFailed] && Kept() == old(Kept())
    {
      Audit(RunFailed, Some(StateMachine.Failed));
      SaveStatus();
      r := Finished(StateMachine.Failed, reason);
    }

    method StartRetry()
      requires LiveAt(StateMachine.RetryDecision)
      modifies machine, journal, journal.dir
      ensures LiveAt(Retrying) && RetryCount() == old(RetryCount())
      ensures Story() == old(Story()) + [RetryStarted] && Kept() == old(Kept())
    {
      Enter(Retrying, RetryStarted);
      SaveStatus();
    }

    method RecordRetryDecision(n: nat)
      requires LiveAt(StateMachine.RetryDecision)
      modifies journal, journal.dir
      ensures LiveAt(StateMachine.RetryDecision)
      ensures Story() == old(Story()) + [RetryDecided] && Kept() == old(Kept()).Filed(RetrySlot, RetryFile(n))
    {
      Record(RetrySlot, RetryFile(n));
      Audit(RetryDecided, Some(StateMachine.RetryDecision));
    }

    method Decide(n: nat, input: AttemptInput) returns (v: Verdict)
      requires LiveAt(Evaluated) && !input.evaluation.passed
      modifies machine, journal, journal.dir
      ensures Live() && RetryCount() == old(RetryCount())
      ensures v.Continue? ==> machine.status == Retrying && RetryAllowed(budget, attempts)
      ensures v.Continue? <==> !v.Raised? && RetryDue(budget, attempts, input.evaluation)
      ensures v.Stopped? ==> Closed(v.result) && Concluded(budget, attempts, input, v.result)
      ensures v.Raised? ==> machine.status == StateMachine.RetryDecision
      ensures v.Raised? <==> input.fault == Some(RetryEngine)
      ensures Grown(old(Story()), old(Kept()))
      ensures !v.Raised? ==> Story() == old(Story()) + JudgeStory(input, v.Continue?)
      ensures !v.Raised? ==> Kept() == old(Kept()).Filed(RetrySlot, RetryFile(n))
    {
      Move(StateMachine.RetryDecision);
      if input.fault == Some(RetryEngine) {
        return Raised;
      }
      var decision := DecideRetry(budget, attempts, input.evaluation);
      v := ActOn(n, decision);
    }

    method ActOn(n: nat, decision: Decision) returns (v: Verdict)
      requires LiveAt(StateMachine.RetryDecision)
      modifies machine, journal, journal.dir
      ensures RetryCount() == old(RetryCount()) && !v.Raised? && (v.Continue? <==> decision.shouldRetry)
      ensures Kept() == old(Kept()).Filed(RetrySlot, RetryFile(n))
      ensures v.Continue? ==> LiveAt(Retrying) && Story() == old(Story()) + [RetryDecided, RetryStarted]
      ensures v.Stopped? ==> Closed(v.result) && v.result == Finished(StateMachine.Failed, decision.reason)
      ensures v.Stopped? ==> Story() == old(Story()) + [RetryDecided, RetryStopped, RunFailed]
    {
      ghost var told := Story();
      RecordRetryDecision(n);
      if decision.shouldRetry {
        Assoc(told, [RetryDecided], [RetryStarted]);
        StartRetry();
        v := Continue;
      } else {
        StopStory(told);
        var r := StopRetrying(decision.reason);
        v := Stopped(r);
      }
    }

    method PolicyGate(input: AttemptInput) returns (v: Verdict)
      requires LiveAt(Evaluated) && EvaluationLogged() && input.evaluation.passed
      modifies machine, journal, journal.dir
      ensures Live() && RetryCount() == old(RetryCount()) && !v.Continue?
      ensures v.Stopped? ==> Closed(v.result) && Concluded(budget, attempts, input, v.result)
      ensures v.Raised? ==> machine.status == PolicyReview
      ensures v.Raised? <==> input.fault == Some(PolicyEngine)
      ensures Grown(old(Story()), old(Kept()))
      ensures v.Stopped? ==> Story() == old(Story()) + JudgeStory(input, false) && Kept() == GatedBy(old(Kept()), input)
    {
      Assoc(Story(), [PolicyReviewStarted], GateStory(input));
      Enter(PolicyReview, PolicyReviewStarted);
      if input.fault == Some(PolicyEngine) {
        return Raised;
      }
      var r := Conclude(input);
      v := Stopped(r);
    }

    /** Apply the policy outcome; the run ends where it says. */
    method Conclude(input: AttemptInput) returns (r: RunResult)
      requires LiveAt(PolicyReview) && EvaluationLogged()
      modifies machine, journal, journal.dir
      ensures Closed(r) && r == Finished(GateStatus(input), Success) && RetryCount() == old(RetryCount())
      ensures Story() == old(Story()) + GateStory(input) && Kept() == GatedBy(old(Kept()), input)
    {
      ApplyPolicy(input);
      r := Finished(machine.status, Success);
    }

    /** The gate's three outcomes all end with the status saved and the evaluation on record. */
    ghost predicate Settled(status: RunStatus)
      reads this, machine, journal, journal.dir
    {
      LiveAt(status) && journal.durable.value.workflow == At(status) && EvaluationLogged()
    }

    method ApplyPolicy(input: AttemptInput)
      requires LiveAt(PolicyReview) && EvaluationLogged()
      modifies machine, journal, journal.dir
      ensures Settled(GateStatus(input)) && RetryCount() == old(RetryCount())
      ensures machine.status == AwaitingHuman ==> journal.dir.disk.summary.Some?
      ensures Story() == old(Story()) + GateStory(input) && Kept() == GatedBy(old(Kept()), input)
    {
      Record(PolicySlot, PolicyFile);
      match input.outcome {
        case ApproveOutcome => ApproveRun();
        case RejectOutcome => RejectRun();
        case EscalateOutcome => Escalate(input.packageId);
      }
    }

    method ApproveRun()
      requires LiveAt(PolicyReview) && EvaluationLogged()
      modifies machine, journal, journal.dir
      ensures Settled(Approved) && RetryCount() == old(RetryCount())
      ensures Story() == old(Story()) + [PolicyApproved, RunSucceeded] && Kept() == old(Kept())
    {
      Enter(Approved, PolicyApproved);
      Audit(RunSucceeded, Some(Approved));
      SaveStatus();
    }

    method RejectRun()
      requires LiveAt(PolicyReview) && EvaluationLogged()
      modifies machine, journal, journal.dir
      ensures Settled(Rejected) && RetryCount() == old(RetryCount())
      ensures Story() == old(Story()) + [PolicyRejected] && Kept() == old(Kept())
    {
      Enter(Rejected, PolicyRejected);
      SaveStatus();
    }

    method Escalate(packageId: Option<string>)
      requires LiveAt(PolicyReview) && EvaluationLogged()
      modifies machine, journal, journal.dir
      ensures Settled(if packageId.Some? then AwaitingHuman else EscalationError) && RetryCount() == old(RetryCount())
      ensures packageId.Some? ==> journal.dir.disk.summary.Some?
      ensures Story() == old(Story()) + EscalationStory(packageId) && Kept() == PackagedBy(old(Kept()), packageId)
    {
      Assoc(Story(), [PolicyEscalated], PackageStory(packageId));
      Enter(Escalated, PolicyEscalated);
      Move(EscalationBuilding);
      SaveStatus();
      BuildPackage(packageId);
    }

    method BuildPackage(packageId: Option<string>)
      requires LiveAt(EscalationBuilding) && EvaluationLogged()
      modifies machine, journal, journal.dir
      ensures Settled(if packageId.Some? then AwaitingHuman else EscalationError) && RetryCount() == old(RetryCount())
      ensures packageId.Some? ==> journal.dir.disk.summary.Some?
      ensures Story() == old(Story()) + PackageStory(packageId) && Kept() == PackagedBy(old(Kept()), packageId)
    {
      if packageId.Some? {
        AwaitHuman(packageId.value);
      } else {
        Move(EscalationError);
        SaveStatus();
      }
    }

    method AwaitHuman(packageId: string)
      requires LiveAt(EscalationBuilding) && EvaluationLogged()
      modifies machine, journal, journal.dir
      ensures Settled(AwaitingHuman) && RetryCount() == old(RetryCount())
      ensures journal.dir.disk.summary.Some? && Kept() == PackagedBy(old(Kept()), Some(packageId))
      ensures Story() == old(Story()) + [EscalationPackageCreated, AwaitingHumanEvent]
    {
      StorePackage(packageId);
      AnnounceWaiting();
    }

    method StorePackage(packageId: string)
      requires LiveAt(EscalationBuilding)
      modifies machine, journal, journal.dir
      ensures LiveAt(AwaitingHuman) && RetryCount() == old(RetryCount())
      ensures journal.dir.disk.summary.Some? && journal.dir.disk.log == old(journal.dir.disk).log
      ensures Kept() == PackagedBy(old(Kept()), Some(packageId))
    {
      Move(AwaitingHuman);
      journal.WritePackage(packageId);
      Save(EscalationSlot, SummaryFile);
    }

    method AnnounceWaiting()
      requires LiveAt(AwaitingHuman) && EvaluationLogged()
      modifies journal, journal.dir
      ensures Settled(AwaitingHuman) && journal.dir.disk.summary == old(journal.dir.disk).summary
      ensures Kept() == old(Kept())
      ensures Story() == old(Story()) + [EscalationPackageCreated, AwaitingHumanEvent]
    {
      Assoc(Story(), [EscalationPackageCreated], [AwaitingHumanEvent]);
      Audit(EscalationPackageCreated, None);
      Audit(AwaitingHumanEvent, Some(AwaitingHuman));
    }

    /** Everything up to a recorded evaluation; `!ok` when a collaborator raised. */
    method Measure(n: nat, input: AttemptInput) returns (ok: bool)
      requires n >= 1 && LiveAt(if n == 1 then Received else Retrying)
      modifies machine, journal, journal.dir
      ensures Live() && RetryCount() <= old(RetryCount()) + if n == 1 then 0 else 1
      ensures ok ==> LiveAt(Evaluated) && EvaluationLogged()
      ensures ok ==> RetryCount() == old(RetryCount()) + if n == 1 then 0 else 1
      ensures !ok ==> Allows(machine.status, StateMachine.Failed)
      ensures ok <==> !PrepareRaises(n, input) && !ProduceRaises(input)
      ensures Grown(old(Story()), old(Kept()))
      ensures ok ==> Story() == old(Story()) + MeasureStory(n, input)
      ensures ok ==> Kept() == MeasuredBy(old(Kept()), n, input.tools)
    {
      Assoc(old(Story()), PrepareStory(n), ProduceStory(input));
      ok := Prepare(n, input);
      if ok {
        ok := Produce(n, input);
      }
    }

    method Produce(n: nat, input: AttemptInput) returns (ok: bool)
      requires LiveAt(Planned)
      modifies machine, journal, journal.dir
      ensures Live() && RetryCount() == old(RetryCount())
      ensures ok ==> machine.status == Evaluated && EvaluationLogged()
      ensures !ok ==> Allows(machine.status, StateMachine.Failed)
      ensures ok <==> !ProduceRaises(input)
      ensures Grown(old(Story()), old(Kept()))
      ensures ok ==> Story() == old(Story()) + ProduceStory(input) && Kept() == ProducedBy(old(Kept()), n, input.tools)
    {
      Assoc(Story(), ExecuteStory(input), [SandboxStarted, SandboxCompleted, EvaluationCompleted]);
      ok := ExecuteTools(n, input);
      if ok {
        ok := Evaluate(n, input);
      }
    }

    /** Pass an evaluated attempt to the gate or to the retry engine. */
    method Judge(n: nat, input: AttemptInput) returns (v: Verdict)
      requires LiveAt(Evaluated) && EvaluationLogged()
      modifies machine, journal, journal.dir
      ensures Live() && RetryCount() == old(RetryCount())
      ensures v.Continue? ==> machine.status == Retrying && RetryAllowed(budget, attempts)
      ensures v.Continue? ==> RetryDue(budget, attempts, input.evaluation) && !input.evaluation.passed
      ensures v.Stopped? ==> Closed(v.result) && Concluded(budget, attempts, input, v.result)
      ensures v.Raised? ==> Allows(machine.status, StateMachine.Failed)
      ensures v.Raised? <==> JudgeRaises(input)
      ensures Grown(old(Story()), old(Kept()))
      ensures !v.Raised? ==>
        Story() == old(Story()) + JudgeStory(input, v.Continue?) && Kept() == JudgedBy(old(Kept()), n, input)
    {
      if input.evaluation.passed {
        v := PolicyGate(input);
      } else {
        v := Decide(n, input);
      }
    }

    method RunAttempt(n: nat, input: AttemptInput) returns (v: Verdict)
      requires n >= 1 && LiveAt(if n == 1 then Received else Retrying) && |attempts| == n - 1
      modifies this`attempts, machine, journal, journal.dir
      ensures Live() && old(attempts) <= attempts && |attempts| == AttemptsAfter(n, input)
      ensures |attempts| == n ==> RecordOf(attempts, n - 1, input)
      ensures RetryCount() <= old(RetryCount()) + if n == 1 then 0 else 1
      ensures !v.Raised? ==> |attempts| == n && RetryCount() == old(RetryCount()) + if n == 1 then 0 else 1
      ensures v.Continue? ==> machine.status == Retrying && RetryAllowed(budget, attempts)
      ensures v.Continue? ==> RetryDue(budget, attempts, input.evaluation) && !input.evaluation.passed
      ensures v.Stopped? ==> Closed(v.result) && Concluded(budget, attempts, input, v.result)
      ensures v.Raised? ==> Allows(machine.status, StateMachine.Failed)
      ensures v.Raised? <==> Raises(n, input)
      ensures Grown(old(Story()), old(Kept()))
      ensures !v.Raised? ==>
        && Story() == old(Story()) + MeasureStory(n, input) + JudgeStory(input, v.Continue?)
        && Kept() == AttemptKeeps(old(Kept()), n, input)
    {
      var ok := Measure(n, input);
      if !ok || input.fault == Some(AttemptRecorder) {
        return Raised;
      }
      v := KeepAndJudge(n, input);
    }

    /** An evaluated attempt, from its record to its judgement. */
    method KeepAndJudge(n: nat, input: AttemptInput) returns (v: Verdict)
      requires LiveAt(Evaluated) && EvaluationLogged() && |attempts| == n - 1
      modifies this`attempts, machine, journal, journal.dir
      ensures Live() && RetryCount() == old(RetryCount())
      ensures old(attempts) <= attempts && |attempts| == n && RecordOf(attempts, n - 1, input)
      ensures v.Continue? ==> machine.status == Retrying && RetryAllowed(budget, attempts)
      ensures v.Continue? ==> RetryDue(budget, attempts, input.evaluation) && !input.evaluation.passed
      ensures v.Stopped? ==> Closed(v.result) && Concluded(budget, attempts, input, v.result)
      ensures v.Raised? ==> Allows(machine.status, StateMachine.Failed)
      ensures v.Raised? <==> JudgeRaises(input)
      ensures Grown(old(Story()), old(Kept()))
      ensures !v.Raised? ==>
        && Story() == old(Story()) + JudgeStory(input, v.Continue?)
        && Kept() == JudgedBy(old(Kept()).Stored(AttemptFile(n)), n, input)
    {
      KeepAttempt(n, input);
      v := Judge(n, input);
    }

    /** Add the attempt's record to the history and keep it as evidence. */
    method KeepAttempt(n: nat, input: AttemptInput)
      requires LiveAt(Evaluated) && EvaluationLogged()
      modifies this`attempts, journal.dir
      ensures LiveAt(Evaluated) && EvaluationLogged() && Story() == old(Story())
      ensures Kept() == old(Kept()).Stored(AttemptFile(n))
      ensures old(attempts) <= attempts && |attempts| == |old(attempts)| + 1
      ensures RecordOf(attempts, |old(attempts)|, input)
    {
      var previous := if attempts == [] then None else Some(attempts[|attempts| - 1]);
      BuiltAttempt(previous, input.proposal, input.failure, input.evaluation, input.sandboxError, input.disposition);
      attempts := attempts + [BuildAttempt(previous, input.proposal, input.failure, input.evaluation,
                                           input.sandboxError, input.disposition)];
      Write(AttemptFile(n));
    }

    /** The handler for a collaborator that raised. */
    method Fail() returns (r: RunResult)
      requires Live() && Allows(machine.status, StateMachine.Failed)
      modifies machine, journal, journal.dir
      ensures Closed(r) && r == Finished(StateMachine.Failed, UnrecoverableFailure) && RetryCount() == old(RetryCount())
      ensures Story() == old(Story()) + [RunFailed] && Kept() == old(Kept())
    {
      Move(StateMachine.Failed);
      r := CloseFailed(UnrecoverableFailure);
    }

    method Begin() returns (ok: bool)
      requires SysOk(Sys(journal.dir.disk, None)) && machine.Valid() && machine.history == [Received]
      modifies journal, journal.dir
      ensures ok <==> old(journal.dir.disk).state.None?
      ensures ok ==> LiveAt(Received)
      ensures !ok ==> journal.dir.disk == old(journal.dir.disk)
      ensures ok ==> Story() == [RunCreated]
      ensures ok ==> Kept() == EvidenceOf(old(journal.dir.disk).files + {FailureEventFile},
                                          map[FailureEventSlot := FailureEventFile], old(journal.dir.disk).summary)
    {
      ok := journal.StartRun();
      if ok {
        Write(FailureEventFile);
        journal.Checkpoint(None, map[FailureEventSlot := FailureEventFile]);
      }
    }

    /** The whole run. The attempt loop always ends inside an attempt: the code
        behind the loop is never reached. */
    method Run(script: seq<AttemptInput>) returns (r: RunResult)
      requires budget.Valid() && |script| >= budget.maxAttempts && attempts == []
      requires SysOk(Sys(journal.dir.disk, None)) && machine.Valid() && machine.history == [Received]
      modifies this`attempts, machine, journal, journal.dir
      ensures r.AlreadyExists? <==> old(journal.dir.disk).state.Some?
      ensures r.AlreadyExists? ==> journal.dir.disk == old(journal.dir.disk)
      ensures r.Finished? ==> Report(r) && EndsSomewhere(script, old(journal.dir.disk).summary, r)
    {
      var started := Begin();
      if !started {
        return AlreadyExists;
      }
      r := AttemptLoop(script, Kept().package);
    }

    method AttemptLoop(script: seq<AttemptInput>, ghost package: Option<Summary>)
      returns (r: RunResult)
      requires 1 <= budget.maxAttempts <= |script| && OnScript(script, 1, package)
      modifies this`attempts, machine, journal, journal.dir
      ensures Report(r) && EndsSomewhere(script, package, r)
    {
      for n := 1 to budget.maxAttempts + 1
        invariant n <= budget.maxAttempts && OnScript(script, n, package)
      {
        var over;
        over, r := Follow(script, n, package);
        if over {
          return;
        }
      }
      assert false;
    }

    /** The loop head: what the attempts so far recorded, told and kept. */
    ghost predicate OnScript(script: seq<AttemptInput>, n: nat, package: Option<Summary>)
      reads this, machine, journal, journal.dir
    {
      AtLoopHead(n) && OnTrack(budget, attempts, Story(), Kept(), script, n, package)
    }

    /** The `n`-th turn, on the `n`-th entry of the script. */
    method Follow(script: seq<AttemptInput>, n: nat, ghost package: Option<Summary>)
      returns (over: bool, r: RunResult)
      requires OnScript(script, n, package) && n <= budget.maxAttempts && n <= |script|
      modifies this`attempts, machine, journal, journal.dir
      ensures !over ==> n < budget.maxAttempts && OnScript(script, n + 1, package)
      ensures over ==> Report(r) && Ends(script, n, package, r)
    {
      ghost var before, told, kept := attempts, Story(), Kept();
      over, r := Iterate(n, script[n - 1]);
      if over {
        Arrives(budget, before, told, kept, script, n, package, attempts, Story(), Kept(), RetryCount(), r);
      } else {
        GoesOn(budget, before, told, kept, script, n, package, attempts, Story(), Kept());
        RetriedHistoryIsOpen(budget, attempts, 0);
      }
    }

    /** One turn of the attempt loop. */
    method Iterate(n: nat, input: AttemptInput) returns (over: bool, r: RunResult)
      requires AtLoopHead(n) && n <= budget.maxAttempts
      modifies this`attempts, machine, journal, journal.dir
      ensures !over ==> AtLoopHead(n + 1) && RetryDue(budget, attempts, input.evaluation)
      ensures !over ==> !Raises(n, input) && !input.evaluation.passed
      ensures over ==> Report(r)
      ensures TurnMade(old(attempts), old(Story()), old(Kept()), n, input, over, attempts, Story(), Kept())
      ensures over && !Raises(n, input) ==> RetryCount() == n - 1 && Concluded(budget, attempts, input, r)
      ensures Raises(n, input) ==> r == Finished(StateMachine.Failed, UnrecoverableFailure)
    {
      ghost var before := attempts;
      var v := RunAttempt(n, input);
      match v {
        case Continue =>
          Extend(budget, before, attempts);
          return false, AlreadyExists;
        case Stopped(result) => r := result;
        case Raised => r := Fail();
      }
      Finish(before, r);
      over := true;
    }

    /** How this run ends whose last attempt is number `last`. */
    ghost predicate Ends(script: seq<AttemptInput>, last: nat, package: Option<Summary>, r: RunResult)
      reads this, machine, journal, journal.dir
    {
      last <= budget.maxAttempts
      && EndsAs(budget, attempts, Story(), Kept(), RetryCount(), script, last, package, r)
    }

    ghost predicate EndsSomewhere(script: seq<AttemptInput>, package: Option<Summary>, r: RunResult)
      reads this, machine, journal, journal.dir
    {
      exists last :: Ends(script, last, package, r)
    }

    /** Before attempt `n`: everything so far was retried. */
    ghost predicate AtLoopHead(n: nat)
      reads this, machine, journal, journal.dir
    {
      && n >= 1 && LiveAt(if n == 1 then Received else Retrying)
      && |attempts| == n - 1 && RetryCount() == (if n == 1 then 0 else n - 2)
      && RetriedThroughout(budget, attempts)
    }

    /** What every finished run guarantees: a legal, bounded walk that ends in the
        reported status, a journal that recovery accepts in that status, and an
        attempt history in which every attempt but the last was retried. */
    ghost predicate Report(r: RunResult)
      reads this, machine, journal, journal.dir
    {
      && r.Finished? && machine.Valid() && machine.history[0] == Received && machine.status == r.status
      && IsFinal(r.status)
      && |attempts| <= budget.maxAttempts && RetryCount() <= budget.maxAttempts - 1
      && |machine.history| - 1 <= 13 + 8 * (budget.maxAttempts - 1)
      && (attempts != [] ==> RetriedThroughout(budget, attempts[..|attempts| - 1]))
      && journal.dir.disk.state.Some? && journal.dir.disk.state.value.workflow == At(r.status)
      && IsConsistent(journal.dir.disk, journal.dir.disk.state.value)
    }

    lemma Finish(before: seq<Attempt>, r: RunResult)
      requires Closed(r) && RetriedThroughout(budget, before) && RetryCount() <= budget.maxAttempts - 1
      requires before <= attempts && |attempts| <= |before| + 1 && |attempts| <= budget.maxAttempts
      ensures Report(r)
    {
      LiveIsConsistent(journal.dir.disk, journal.durable.value);
      WalkLength(machine.history);
      AllButLast(budget, before, attempts);
    }
  }

  lemma AllButLast(b: Budget, before: seq<Attempt>, after: seq<Attempt>)
    requires RetriedThroughout(b, before) && before <= after && |after| <= |before| + 1
    ensures after != [] ==> RetriedThroughout(b, after[..|after| - 1])
  {
    if after != [] {
      var front := after[..|after| - 1];
      assert forall i :: 1 <= i <= |front| ==> front[..i] == before[..i];
    }
  }

  lemma Extend(b: Budget, before: seq<Attempt>, after: seq<Attempt>)
    requires RetriedThroughout(b, before) && RetryAllowed(b, after)
    requires |after| == |before| + 1 && after[..|before|] == before
    ensures RetriedThroughout(b, after)
  {
    forall i | 1 <= i <= |after| ensures RetryAllowed(b, after[..i]) {
      if i == |after| {
        assert after[..i] == after;
      } else {
        assert after[..i] == before[..i];
      }
    }
  }
}
