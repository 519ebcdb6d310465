/** What the recovery entry points answer and leave behind, said in terms of the run
    directory and the call alone. */
module RecoveryAnswers {
  import opened Options
  import opened StateMachine
  import opened Journal
  import opened Recovery

  // ------------------------------------------------------- reviewer decisions

  /** The escalation package names this id. */
  predicate Packaged(d: Disk, id: string) {
    d.summary == Some(Package(Some(id)))
  }

  /** A consistent run waits for a human and the call names an action. */
  ghost predicate Awaited(d: Disk, input: DecisionInput) {
    && d.state.Some? && IsConsistent(d, d.state.value) && d.state.value.workflow == At(AwaitingHuman)
    && input.action.Some?
  }

  /** The escalation is named by the call or by the package, and never differently by both. */
  ghost predicate Identified(d: Disk, input: DecisionInput) {
    && (input.escalationId.Some? || exists id :: Packaged(d, id))
    && forall id :: Packaged(d, id) && input.escalationId.Some? ==> input.escalationId.value == id
  }

  ghost predicate Decidable(d: Disk, input: DecisionInput) {
    Awaited(d, input) && d.summary != Some(Malformed) && Identified(d, input)
  }

  /** When each answer is given. */
  ghost predicate Answered(d: Disk, input: DecisionInput, status: DecisionStatus) {
    && (status.Applied? <==> Decidable(d, input) && (input.action.value.Approve? || input.action.value.Reject?))
    && (status.Recorded? <==> Decidable(d, input) && (input.action.value.RequestChanges? || input.action.value.Defer?))
    && (status.InconsistentRun? <==>
          (d.state.Some?
           && (!IsConsistent(d, d.state.value) || (Awaited(d, input) && d.summary == Some(Malformed)))))
  }

  lemma DecisionAnswers(d: Disk, input: DecisionInput)
    ensures Answered(d, input, DecisionStatusFor(d, input))
  {
    if d.summary.Some? && d.summary.value.Package? && d.summary.value.escalationId.Some? {
      assert Packaged(d, d.summary.value.escalationId.value);
    }
  }

  /** The events a decision logs behind `n` others. */
  function DecisionEvents(a: ReviewerAction, n: int): seq<Event> {
    match a
    case Approve => [Event(n + 1, HumanDecisionRecorded), Event(n + 2, HumanApproved)]
    case Reject => [Event(n + 1, HumanDecisionRecorded), Event(n + 2, HumanRejected)]
    case _ => [Event(n + 1, HumanDecisionRecorded)]
  }

  function RecordsOf(events: seq<Event>): seq<Line> {
    seq(|events|, i requires 0 <= i < |events| => Record(events[i]))
  }

  /** `after` is `d` with these events logged, the pointer at the last of them, and nothing else
      changed but the workflow, the references and the files as given. */
  ghost predicate Leaves(d: Disk, after: Disk, events: seq<Event>, workflow: Workflow, refs: map<Slot, File>,
                         files: set<File>)
    requires events != []
  {
    && after.log == Log(d.log.lines + RecordsOf(events), Ended)
    && after.state == Some(Snapshot(workflow, events[|events| - 1].sequence, refs))
    && after.files == files && after.summary == d.summary
  }

  function StatusAfter(a: ReviewerAction): RunStatus {
    if a.Approve? then Approved else if a.Reject? then Rejected else AwaitingHuman
  }

  /** A run with a clean, terminated and numbered log. */
  ghost predicate Intact(d: Disk) {
    d.state.Some? && Undamaged(d.log) && d.log.tail.Ended? && Numbered(ReadLog(d.log).events)
  }

  lemma MarkLeaves(d: Disk, kind: EventKind)
    requires Intact(d)
    ensures var n := |d.log.lines|; var after := PerformAll(d, MarkWrites(d, kind));
      && Leaves(d, after, [Event(n + 1, kind)], d.state.value.workflow, d.state.value.refs, d.files)
      && Undamaged(after.log) && Numbered(ReadLog(after.log).events) && |after.log.lines| == n + 1
  {
    CleanRead(d.log);
    var n := |d.log.lines|;
    var e, s := Event(n + 1, kind), d.state.value.(lastSequence := n + 1);
    PerformTwo(d, AppendEvent(e), SaveState(s));
    AppendToClean(d.log, e);
    assert RecordsOf([e]) == [Record(e)];
  }

  lemma RecordLeaves(d: Disk, a: ReviewerAction)
    requires Intact(d)
    ensures var n := |d.log.lines|; var after := PerformAll(d, RecordWrites(d, a));
      && Leaves(d, after, [Event(n + 1, HumanDecisionRecorded)], At(StatusAfter(a)),
                d.state.value.refs[ReviewerSlot := DecisionFile], d.files + {DecisionFile})
      && Undamaged(after.log) && Numbered(ReadLog(after.log).events) && |after.log.lines| == n + 1
  {
    CleanRead(d.log);
    var n := |d.log.lines|;
    var e := Event(n + 1, HumanDecisionRecorded);
    var ws := RecordWrites(d, a);
    var d1 := Perform(d, ws[0]);
    assert ws[1..] == [ws[1], ws[2]];
    PerformTwo(d1, ws[1], ws[2]);
    AppendToClean(d.log, e);
    assert RecordsOf([e]) == [Record(e)];
  }

  /** An accepted decision leaves exactly this behind. */
  lemma DecisionLeaves(d: Disk, input: DecisionInput)
    requires Decidable(d, input) && d.log.tail.Ended?
    ensures var a := input.action.value;
      Leaves(d, PerformAll(d, DecisionWrites(d, input)), DecisionEvents(a, |d.log.lines|), At(StatusAfter(a)),
             d.state.value.refs[ReviewerSlot := DecisionFile], d.files + {DecisionFile})
  {
    DecisionAnswers(d, input);
    var a := input.action.value;
    RecordLeaves(d, a);
    var middle := PerformAll(d, RecordWrites(d, a));
    PerformConcat(d, RecordWrites(d, a), VerdictWrites(middle, a));
    if a.Approve? {
      MarkLeaves(middle, HumanApproved);
    } else if a.Reject? {
      MarkLeaves(middle, HumanRejected);
    }
    assert a.Approve? || a.Reject? ==>
      RecordsOf(DecisionEvents(a, |d.log.lines|))
      == RecordsOf([DecisionEvents(a, |d.log.lines|)[0]]) + RecordsOf([DecisionEvents(a, |d.log.lines|)[1]]);
  }

  lemma RefusedLeavesAll(d: Disk, input: DecisionInput)
    ensures !Decidable(d, input) ==> PerformAll(d, DecisionWrites(d, input)) == d
  {
    DecisionAnswers(d, input);
  }

  // ------------------------------------------------- resumes and operator events

  /** The statuses at which a run was interrupted between two steps. */
  predicate BetweenSteps(w: Workflow) {
    w.At? && w.status in {Received, ContextReady, Classified, Planned, ProposalReady, Evaluated,
                          StateMachine.RetryDecision, Retrying, PolicyReview}
  }

  /** The statuses at which a side effect may have been under way. */
  predicate MidEffect(w: Workflow) {
    w.At? && w.status in {Executing, SandboxRunning, Evaluating, EscalationBuilding, Escalated}
  }

  ghost predicate Assessed(d: Disk, status: Option<RecoveryStatus>) {
    && (status.None? <==> d.state.None?)
    && (status == Some(Inconsistent) <==> d.state.Some? && !IsConsistent(d, d.state.value))
    && (status == Some(Resumable) <==>
          d.state.Some? && IsConsistent(d, d.state.value) && BetweenSteps(d.state.value.workflow))
    && (status == Some(RequiresReview) <==>
          (d.state.Some? && IsConsistent(d, d.state.value)
           && (MidEffect(d.state.value.workflow) || d.state.value.workflow.OtherWorkflow?)))
  }

  lemma ResumeAnswers(d: Disk)
    ensures Assessed(d, if d.state.Some? then Some(ResumeStatus(d)) else None)
  {
  }

  /** A resume logs one event if the run is resumable and touches nothing otherwise. */
  lemma ResumeLeaves(d: Disk)
    ensures var after := PerformAll(d, ResumeWrites(d)); var may :=
        d.state.Some? && IsConsistent(d, d.state.value) && BetweenSteps(d.state.value.workflow);
      && (!may ==> after == d)
      && (may && d.log.tail.Ended? ==>
            Leaves(d, after, [Event(|d.log.lines| + 1, RunResumed)], d.state.value.workflow, d.state.value.refs,
                   d.files))
  {
    ResumeAnswers(d);
    if d.state.Some? && ResumeStatus(d) == Resumable && d.log.tail.Ended? {
      MarkLeaves(d, RunResumed);
    }
  }

  function OperatorKindLogged(k: OperatorKind): EventKind {
    if k.PatchApplied? then TargetPatchApplied else if k.BranchPushed? then TargetBranchPushed
    else if k.PrOpened? then TargetPrOpened else RepairVerificationCompleted
  }

  /** An operator event logs itself on any intact run, whatever its status. */
  lemma OperatorLeaves(d: Disk, k: OperatorKind)
    requires Intact(d)
    ensures Leaves(d, PerformAll(d, OperatorWrites(d, k)), [Event(|d.log.lines| + 1, OperatorKindLogged(k))],
             d.state.value.workflow, d.state.value.refs, d.files)
  {
    MarkLeaves(d, EventOf(k));
  }
}
