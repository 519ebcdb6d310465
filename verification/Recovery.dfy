/** The operations that write a run's journal, each as the list of disk writes it
    performs in order, and the runs that interleave them with crashes. */
module Recovery {
  import opened Options
  import opened StateMachine
  import opened Journal

  // ------------------------------------------------------------- assessment

  datatype RecoveryStatus = Resumable | Terminal | RequiresReview | Inconsistent

  function AssessRecovery(w: Workflow): RecoveryStatus {
    match w
    case PersistenceError => Terminal
    case OtherWorkflow(_) => RequiresReview
    case At(s) =>
      match s
      case Approved | Rejected | AwaitingHuman | EscalationError | Failed | Succeeded => Terminal
      case Executing | SandboxRunning | Evaluating | EscalationBuilding | Escalated => RequiresReview
      case _ => Resumable
  }

  // ------------------------------------------------------------- operations

  predicate IsVerdict(kind: EventKind) {
    kind == HumanApproved || kind == HumanRejected
  }

  function Advance(s: Snapshot, sequence: int, after: Option<RunStatus>): Snapshot {
    s.(lastSequence := sequence, workflow := if after.Some? then At(after.value) else s.workflow)
  }

  /** `emit`: append the event, then save the snapshot that points at it. */
  function EmitWrites(mem: Snapshot, kind: EventKind, after: Option<RunStatus>): seq<Write> {
    [AppendEvent(Event(mem.lastSequence + 1, kind)), SaveState(Advance(mem, mem.lastSequence + 1, after))]
  }

  const FreshState := Snapshot(At(Received), 0, map[])

  function StartWrites(): seq<Write> {
    [SaveState(FreshState)] + EmitWrites(FreshState, RunCreated, Some(Received))
  }

  ghost function ResumeStatus(d: Disk): RecoveryStatus
    requires d.state.Some?
  {
    if !IsConsistent(d, d.state.value) then Inconsistent else AssessRecovery(d.state.value.workflow)
  }

  /** Append one event numbered from the log and save the pointer to it. */
  ghost function MarkWrites(d: Disk, kind: EventKind): seq<Write>
    requires d.state.Some?
  {
    match NextSequence(d.log)
    case None => []
    case Some(n) => [AppendEvent(Event(n, kind)), SaveState(d.state.value.(lastSequence := n))]
  }

  ghost function ResumeWrites(d: Disk): seq<Write> {
    if d.state.Some? && ResumeStatus(d) == Resumable then MarkWrites(d, RunResumed) else []
  }

  datatype OperatorKind = PatchApplied | BranchPushed | PrOpened | VerificationCompleted

  function EventOf(k: OperatorKind): EventKind {
    match k
    case PatchApplied => TargetPatchApplied
    case BranchPushed => TargetBranchPushed
    case PrOpened => TargetPrOpened
    case VerificationCompleted => RepairVerificationCompleted
  }

  /** No consistency check here. */
  ghost function OperatorWrites(d: Disk, k: OperatorKind): seq<Write> {
    if d.state.Some? then MarkWrites(d, EventOf(k)) else []
  }

  // --------------------------------------------------------- human decisions

  datatype ReviewerAction = Approve | Reject | RequestChanges | Defer

  /** `action` is `None` for text that names no action; empty escalation ids are `None`. */
  datatype DecisionInput = DecisionInput(action: Option<ReviewerAction>, escalationId: Option<string>)

  datatype DecisionStatus = Applied | Recorded | Blocked | InconsistentRun

  function PackagedId(d: Disk): Option<string> {
    if d.summary.Some? && d.summary.value.Package? then d.summary.value.escalationId else None
  }

  function ResolvedId(d: Disk, input: DecisionInput): Option<string> {
    if input.escalationId.Some? then input.escalationId else PackagedId(d)
  }

  ghost function DecisionStatusFor(d: Disk, input: DecisionInput): DecisionStatus {
    if d.state.None? then Blocked
    else if !IsConsistent(d, d.state.value) then InconsistentRun
    else if d.state.value.workflow != At(AwaitingHuman) || input.action.None? then Blocked
    else if d.summary == Some(Malformed) then InconsistentRun
    else if ResolvedId(d, input).None? then Blocked
    else if PackagedId(d).Some? && PackagedId(d) != ResolvedId(d, input) then Blocked
    else if input.action.value.Approve? || input.action.value.Reject? then Applied else Recorded
  }

  function NextStatus(a: ReviewerAction): RunStatus {
    match a
    case Approve => Approved
    case Reject => Rejected
    case _ => AwaitingHuman
  }

  ghost predicate Accepted(d: Disk, input: DecisionInput) {
    DecisionStatusFor(d, input) in {Applied, Recorded}
  }

  function Decided(s: Snapshot, a: ReviewerAction, n: int): Snapshot {
    Snapshot(At(NextStatus(a)), n, s.refs[ReviewerSlot := DecisionFile])
  }

  /** Evidence, the recorded event and the new status, in that order. */
  ghost function RecordWrites(d: Disk, a: ReviewerAction): seq<Write>
    requires d.state.Some?
  {
    match NextSequence(d.log)
    case None => []
    case Some(n) =>
      [WriteFile(DecisionFile), AppendEvent(Event(n, HumanDecisionRecorded)), SaveState(Decided(d.state.value, a, n))]
  }

  /** The terminal event and the pointer to it, for approvals and rejections. */
  ghost function VerdictWrites(d: Disk, a: ReviewerAction): seq<Write>
    requires d.state.Some?
  {
    if a.Approve? then MarkWrites(d, HumanApproved)
    else if a.Reject? then MarkWrites(d, HumanRejected)
    else []
  }

  lemma {:induction false} StateStays(d: Disk, ws: seq<Write>)
    requires d.state.Some?
    ensures PerformAll(d, ws).state.Some?
    decreases |ws|
  {
    if ws != [] {
      StateStays(Perform(d, ws[0]), ws[1..]);
    }
  }

  ghost function DecisionWrites(d: Disk, input: DecisionInput): seq<Write> {
    if Accepted(d, input) then
      var a := input.action.value;
      StateStays(d, RecordWrites(d, a));
      RecordWrites(d, a) + VerdictWrites(PerformAll(d, RecordWrites(d, a)), a)
    else []
  }

  // --------------------------------------------------------- the invariant

  /** The terminal human decisions in the log, damaged lines left out. */
  function Verdicts(lines: seq<Line>): seq<EventKind> {
    if lines == [] then []
    else
      var last := lines[|lines| - 1];
      Verdicts(lines[..|lines| - 1]) + if last.Record? && IsVerdict(last.event.kind) then [last.event.kind] else []
  }

  ghost predicate VerdictMatches(kind: EventKind, state: Option<Snapshot>) {
    && state.Some?
    && (kind == HumanApproved ==> state.value.workflow == At(Approved))
    && (kind == HumanRejected ==> state.value.workflow == At(Rejected))
  }

  /** At most one terminal decision, and it is the one the snapshot shows. */
  ghost predicate VerdictsOk(d: Disk) {
    var v := Verdicts(AllLines(d.log));
    v == [] || (|v| == 1 && VerdictMatches(v[0], d.state))
  }

  ghost predicate Undamaged(log: Log) {
    ReadLog(log).Events? && !ReadLog(log).torn
  }

  /** Readable events are numbered 1..n, and unless the log is damaged the saved
      pointer is at most n. */
  ghost predicate SequenceOk(d: Disk) {
    && (ReadLog(d.log).Events? ==> Numbered(ReadLog(d.log).events))
    && (d.state.None? ==> d.log == Log([], Ended))
    && (Undamaged(d.log) && d.state.Some? ==> 0 <= d.state.value.lastSequence <= |ReadLog(d.log).events|)
  }

  ghost predicate DiskOk(d: Disk) {
    SequenceOk(d) && VerdictsOk(d)
  }

  // ------------------------------------------------ one write at a time

  ghost predicate WriteOk(d: Disk, w: Write) {
    match w
    case AppendEvent(e) =>
      && d.state.Some? && NextSequence(d.log) == Some(e.sequence)
      && (IsVerdict(e.kind) ==> Verdicts(AllLines(d.log)) == [] && VerdictMatches(e.kind, d.state))
    case SaveState(s) =>
      && (Undamaged(d.log) ==> 0 <= s.lastSequence <= |ReadLog(d.log).events|)
      && VerdictsOk(d.(state := Some(s)))
    case _ => true
  }

  /** What an append, whole or torn, does to the terminal decisions on record. */
  ghost predicate VerdictStep(v: seq<EventKind>, kind: EventKind, w: seq<EventKind>) {
    w == v || (v != [] && w == v[..|v| - 1]) || (IsVerdict(kind) && w == v + [kind])
  }

  lemma VerdictsOfAppend(log: Log, e: Event, cut: Cut)
    ensures VerdictStep(Verdicts(AllLines(log)), e.kind, Verdicts(AllLines(Append(log, e))))
    ensures VerdictStep(Verdicts(AllLines(log)), e.kind, Verdicts(AllLines(TornAppend(log, e, cut))))
  {
    WholeAppendVerdicts(log, e);
    TornAppendVerdicts(log, e, cut);
  }

  lemma WholeAppendVerdicts(log: Log, e: Event)
    ensures VerdictStep(Verdicts(AllLines(log)), e.kind, Verdicts(AllLines(Append(log, e))))
  {
    TailVerdicts(log);
    TailVerdicts(Append(log, e));
    OneMoreLine(log.lines, if log.tail.Ended? then Record(e) else Garbage);
  }

  lemma TornAppendVerdicts(log: Log, e: Event, cut: Cut)
    ensures VerdictStep(Verdicts(AllLines(log)), e.kind, Verdicts(AllLines(TornAppend(log, e, cut))))
  {
    TailVerdicts(log);
    TailVerdicts(TornAppend(log, e, cut));
  }

  /** The terminal decisions of a log are those of its lines, and that of a whole tail. */
  lemma TailVerdicts(log: Log)
    ensures Verdicts(AllLines(log)) == Verdicts(log.lines)
      + if log.tail.Whole? && IsVerdict(log.tail.event.kind) then [log.tail.event.kind] else []
  {
    match log.tail
    case Ended => assert AllLines(log) == log.lines;
    case Whole(e) => OneMoreLine(log.lines, Record(e));
    case Fragment => OneMoreLine(log.lines, Garbage);
  }

  lemma OneMoreLine(lines: seq<Line>, last: Line)
    ensures Verdicts(lines + [last])
         == Verdicts(lines) + if last.Record? && IsVerdict(last.event.kind) then [last.event.kind] else []
  {
    assert (lines + [last])[..|lines|] == lines;
  }

  lemma AppendKeepsOk(d: Disk, e: Event, cut: Cut)
    requires DiskOk(d) && WriteOk(d, AppendEvent(e))
    ensures DiskOk(Perform(d, AppendEvent(e))) && DiskOk(Torn(d, AppendEvent(e), cut))
  {
    VerdictsOfAppend(d.log, e, cut);
    AppendNumbers(d.log, e, cut);
  }

  /** Numbering survives, and undamaged text only grows. */
  ghost predicate NumberingKept(log: Log, after: Log) {
    && (ReadLog(after).Events? ==> Numbered(ReadLog(after).events))
    && (Undamaged(after) ==> Undamaged(log) && |ReadLog(after).events| >= |ReadLog(log).events|)
  }

  /** Numbering survives complete and torn appends. */
  lemma AppendNumbers(log: Log, e: Event, cut: Cut)
    requires NextSequence(log) == Some(e.sequence) && Numbered(ReadLog(log).events)
    ensures NumberingKept(log, Append(log, e)) && NumberingKept(log, TornAppend(log, e, cut))
  {
    if Undamaged(log) {
      CleanAppendNumbers(log, e);
      CleanTearNumbers(log, e, cut);
    } else {
      DamageStays(log, e);
    }
  }

  /** Dropping the last record keeps the numbering. */
  lemma NumberedFront(events: seq<Event>, e: Event)
    requires Numbered(events + [e])
    ensures Numbered(events)
  {
    assert forall i :: 0 <= i < |events| ==> (events + [e])[i] == events[i];
  }

  lemma CleanAppendNumbers(log: Log, e: Event)
    requires NextSequence(log) == Some(e.sequence) && Numbered(ReadLog(log).events) && Undamaged(log)
    ensures log.tail.Ended? ==> NumberingKept(log, Append(log, e))
    ensures log.tail.Whole? ==> NumberingKept(log, Append(log, e))
    ensures !log.tail.Fragment?
  {
    CleanRead(log);
    if log.tail.Ended? {
      AppendToClean(log, e);
    } else {
      AppendToWhole(log, e);
      NumberedFront(EventsOf(log.lines), log.tail.event);
    }
  }

  lemma CleanTearNumbers(log: Log, e: Event, cut: Cut)
    requires NextSequence(log) == Some(e.sequence) && Numbered(ReadLog(log).events) && Undamaged(log)
    ensures NumberingKept(log, TornAppend(log, e, cut))
  {
    CleanRead(log);
    FragmentReads(log);
    if log.tail.Ended? {
    } else {
      NumberedFront(EventsOf(log.lines), log.tail.event);
    }
  }

  lemma FragmentReads(log: Log)
    requires AllRecords(log.lines)
    ensures ReadLog(log.(tail := Fragment)) == Events(EventsOf(log.lines), true)
  {
    var after := AllLines(log.(tail := Fragment));
    assert after == log.lines + [Garbage];
    assert after[|after| - 1] == Garbage && after[..|after| - 1] == log.lines;
  }

  /** Every write of the list is allowed where it happens. */
  ghost predicate WritesOk(d: Disk, ws: seq<Write>)
    decreases |ws|
  {
    ws == [] || (WriteOk(d, ws[0]) && WritesOk(Perform(d, ws[0]), ws[1..]))
  }

  lemma WriteKeepsOk(d: Disk, w: Write, cut: Cut)
    requires DiskOk(d) && WriteOk(d, w)
    ensures DiskOk(Perform(d, w)) && DiskOk(Torn(d, w, cut))
  {
    if w.AppendEvent? {
      AppendKeepsOk(d, w.e, cut);
    }
  }

  /** The disk after the first `k` writes, the next one cut short. */
  function CrashPoint(d: Disk, ws: seq<Write>, k: nat, cut: Cut): Disk
    requires k <= |ws|
  {
    var reached := PerformAll(d, ws[..k]);
    if k < |ws| then Torn(reached, ws[k], cut) else reached
  }

  lemma {:induction false} CrashKeepsOk(d: Disk, ws: seq<Write>, k: nat, cut: Cut)
    requires DiskOk(d) && WritesOk(d, ws) && k <= |ws|
    ensures DiskOk(CrashPoint(d, ws, k, cut))
    decreases |ws|
  {
    if k == 0 {
      assert ws[..k] == [];
      if ws != [] {
        WriteKeepsOk(d, ws[0], cut);
      }
    } else {
      WriteKeepsOk(d, ws[0], cut);
      CrashKeepsOk(Perform(d, ws[0]), ws[1..], k - 1, cut);
      assert ws[..k][1..] == ws[1..][..k - 1];
    }
  }

  // --------------------------------------------- every operation is allowed

  lemma PairOk(d: Disk, n: int, kind: EventKind, s: Snapshot)
    requires DiskOk(d) && d.state.Some? && NextSequence(d.log) == Some(n)
    requires s.lastSequence == n && (s.workflow == d.state.value.workflow || Verdicts(AllLines(d.log)) == [])
    requires IsVerdict(kind) ==>
      (Verdicts(AllLines(d.log)) == [] && s.workflow == d.state.value.workflow && VerdictMatches(kind, d.state))
    ensures WritesOk(d, [AppendEvent(Event(n, kind)), SaveState(s)])
  {
    var e := Event(n, kind);
    var d1 := Perform(d, AppendEvent(e));
    assert WriteOk(d, AppendEvent(e));
    AppendKeepsOk(d, e, NoBytes);
    VerdictsOfAppend(d.log, e, NoBytes);
    PointerAfterAppend(d.log, e);
    assert WriteOk(d1, SaveState(s));
    assert [AppendEvent(e), SaveState(s)][1..] == [SaveState(s)];
    assert WritesOk(d1, [SaveState(s)]);
  }

  lemma PointerAfterAppend(log: Log, e: Event)
    requires NextSequence(log) == Some(e.sequence) && Numbered(ReadLog(log).events)
    ensures Undamaged(Append(log, e)) ==> 0 <= e.sequence == |ReadLog(Append(log, e)).events|
  {
    if Undamaged(log) {
      CleanRead(log);
      if log.tail.Ended? {
        AppendToClean(log, e);
      } else {
        AppendToWhole(log, e);
      }
    } else {
      DamageStays(log, e);
    }
  }

  lemma {:induction false} PerformConcat(d: Disk, ws: seq<Write>, vs: seq<Write>)
    ensures PerformAll(d, ws + vs) == PerformAll(PerformAll(d, ws), vs)
    ensures WritesOk(d, ws) && WritesOk(PerformAll(d, ws), vs) ==> WritesOk(d, ws + vs)
    decreases |ws|
  {
    if ws == [] {
      assert ws + vs == vs;
    } else {
      assert (ws + vs)[1..] == ws[1..] + vs;
      PerformConcat(Perform(d, ws[0]), ws[1..], vs);
    }
  }

  lemma CompleteKeepsOk(d: Disk, ws: seq<Write>)
    requires DiskOk(d) && WritesOk(d, ws)
    ensures DiskOk(PerformAll(d, ws))
  {
    CrashKeepsOk(d, ws, |ws|, NoBytes);
    assert ws[..|ws|] == ws;
  }

  lemma MarkOk(d: Disk, kind: EventKind)
    requires DiskOk(d) && d.state.Some?
    requires IsVerdict(kind) ==> (Verdicts(AllLines(d.log)) == [] && VerdictMatches(kind, d.state))
    ensures WritesOk(d, MarkWrites(d, kind))
  {
    if NextSequence(d.log).Some? {
      var n := NextSequence(d.log).value;
      PairOk(d, n, kind, d.state.value.(lastSequence := n));
    }
  }

  /** A run that waits for a human has no terminal decision on record. */
  lemma WaitingIsUndecided(d: Disk)
    requires DiskOk(d) && d.state.Some? && d.state.value.workflow == At(AwaitingHuman)
    ensures Verdicts(AllLines(d.log)) == []
  {
    var v := Verdicts(AllLines(d.log));
    if v != [] {
      VerdictsAreVerdicts(AllLines(d.log));
    }
  }

  lemma {:induction false} VerdictsAreVerdicts(lines: seq<Line>)
    ensures forall i :: 0 <= i < |Verdicts(lines)| ==> IsVerdict(Verdicts(lines)[i])
  {
    if lines != [] {
      VerdictsAreVerdicts(lines[..|lines| - 1]);
    }
  }

  lemma RecordOk(d: Disk, a: ReviewerAction)
    requires DiskOk(d) && d.state.Some? && d.state.value.workflow == At(AwaitingHuman)
    ensures WritesOk(d, RecordWrites(d, a))
    ensures NextSequence(d.log).Some? ==>
      var after := PerformAll(d, RecordWrites(d, a));
      && after.state.Some? && after.state.value.workflow == At(NextStatus(a))
      && Verdicts(AllLines(after.log)) == []
  {
    WaitingIsUndecided(d);
    if NextSequence(d.log).Some? {
      var n := NextSequence(d.log).value;
      var d1 := Perform(d, WriteFile(DecisionFile));
      var e, s := Event(n, HumanDecisionRecorded), Decided(d.state.value, a, n);
      PairOk(d1, n, HumanDecisionRecorded, s);
      VerdictsOfAppend(d.log, e, NoBytes);
      assert RecordWrites(d, a)[1..] == [AppendEvent(e), SaveState(s)];
      assert [AppendEvent(e), SaveState(s)][1..] == [SaveState(s)];
      assert PerformAll(Perform(d1, AppendEvent(e)), [SaveState(s)])
          == Perform(Perform(d1, AppendEvent(e)), SaveState(s));
    }
  }

  lemma DecisionOk(d: Disk, input: DecisionInput)
    requires DiskOk(d)
    ensures WritesOk(d, DecisionWrites(d, input))
  {
    if Accepted(d, input) {
      var a := input.action.value;
      RecordOk(d, a);
      StateStays(d, RecordWrites(d, a));
      CompleteKeepsOk(d, RecordWrites(d, a));
      var after := PerformAll(d, RecordWrites(d, a));
      if a.Approve? {
        MarkOk(after, HumanApproved);
      } else if a.Reject? {
        MarkOk(after, HumanRejected);
      }
      PerformConcat(d, RecordWrites(d, a), VerdictWrites(after, a));
    }
  }

  // ------------------------------------------------------------------- runs

  /** `mem` is the runner's own copy of the snapshot while it is alive. */
  datatype Sys = Sys(disk: Disk, mem: Option<Snapshot>)

  datatype Op =
    | Start
    | Emit(kind: EventKind, after: Option<RunStatus>)
    | Checkpoint(workflow: Option<RunStatus>, refs: map<Slot, File>)
    | Evidence(file: File)
    | EscalationPackage(summary: Summary)
    | Exit
    | ResumeRun
    | Decide(input: DecisionInput)
    | OperatorEvent(k: OperatorKind)

  predicate ByRunner(op: Op) {
    op.Emit? || op.Checkpoint? || op.Evidence? || op.EscalationPackage? || op.Exit?
  }

  /** One writer at a time: recovery, reviewers and operators come after the runner. */
  predicate Enabled(s: Sys, op: Op) {
    && (ByRunner(op) <==> s.mem.Some?)
    && (op.Emit? ==> !IsVerdict(op.kind))
    && (op.Start? ==> s.disk.state.None?)
  }

  function Updated(mem: Snapshot, workflow: Option<RunStatus>, refs: map<Slot, File>): Snapshot {
    mem.(workflow := if workflow.Some? then At(workflow.value) else mem.workflow, refs := mem.refs + refs)
  }

  ghost function Writes(s: Sys, op: Op): seq<Write>
    requires Enabled(s, op)
  {
    match op
    case Start => StartWrites()
    case Emit(kind, after) => EmitWrites(s.mem.value, kind, after)
    case Checkpoint(workflow, refs) => [SaveState(Updated(s.mem.value, workflow, refs))]
    case Evidence(f) => [WriteFile(f)]
    case EscalationPackage(p) => [WriteSummary(p)]
    case Exit => []
    case ResumeRun => ResumeWrites(s.disk)
    case Decide(input) => DecisionWrites(s.disk, input)
    case OperatorEvent(k) => OperatorWrites(s.disk, k)
  }

  ghost function MemAfter(s: Sys, op: Op): Option<Snapshot>
    requires Enabled(s, op)
  {
    match op
    case Start => Some(Advance(FreshState, 1, Some(Received)))
    case Emit(_, after) => Some(Advance(s.mem.value, s.mem.value.lastSequence + 1, after))
    case Checkpoint(workflow, refs) => Some(Updated(s.mem.value, workflow, refs))
    case Evidence(_) => s.mem
    case EscalationPackage(_) => s.mem
    case _ => None
  }

  /** Complete, or stopped after `k` writes with the next one cut short. */
  datatype Ending = Completes | Crashes(k: nat, cut: Cut)

  ghost predicate StepTo(s: Sys, op: Op, ending: Ending, s': Sys) {
    && Enabled(s, op)
    && match ending
       case Completes => s' == Sys(PerformAll(s.disk, Writes(s, op)), MemAfter(s, op))
       case Crashes(k, cut) =>
         k <= |Writes(s, op)| && s' == Sys(CrashPoint(s.disk, Writes(s, op), k, cut), None)
  }

  ghost predicate Step(s: Sys, s': Sys) {
    exists op, ending :: StepTo(s, op, ending, s')
  }

  ghost predicate IsRun(trace: seq<Sys>) {
    trace != [] && forall i, j :: 0 <= i < j == i + 1 < |trace| ==> Step(trace[i], trace[j])
  }

  /** While the runner lives the log is clean and its copy equals the snapshot on disk. */
  ghost predicate RunnerOk(s: Sys) {
    s.mem.Some? ==>
      && s.disk.state == s.mem && s.disk.log.tail.Ended? && AllRecords(s.disk.log.lines)
      && s.mem.value.lastSequence == |s.disk.log.lines| && Verdicts(s.disk.log.lines) == []
  }

  ghost predicate SysOk(s: Sys) {
    DiskOk(s.disk) && RunnerOk(s)
  }

  lemma RunnerNext(s: Sys)
    requires SysOk(s) && s.mem.Some?
    ensures NextSequence(s.disk.log) == Some(s.mem.value.lastSequence + 1)
    ensures AllLines(s.disk.log) == s.disk.log.lines
  {
    assert AllLines(s.disk.log) == s.disk.log.lines;
    assert ReadLog(s.disk.log) == Events(EventsOf(s.disk.log.lines), false);
  }

  lemma PerformTwo(d: Disk, w: Write, v: Write)
    ensures PerformAll(d, [w, v]) == Perform(Perform(d, w), v)
  {
    assert [w, v][1..] == [v];
    assert PerformAll(Perform(d, w), [v]) == Perform(Perform(d, w), v);
  }

  lemma EmitOk(s: Sys, kind: EventKind, after: Option<RunStatus>)
    requires SysOk(s) && s.mem.Some? && !IsVerdict(kind)
    ensures WritesOk(s.disk, EmitWrites(s.mem.value, kind, after))
    ensures RunnerOk(Sys(PerformAll(s.disk, EmitWrites(s.mem.value, kind, after)),
                         Some(Advance(s.mem.value, s.mem.value.lastSequence + 1, after))))
  {
    RunnerNext(s);
    var n := s.mem.value.lastSequence + 1;
    var e, next := Event(n, kind), Advance(s.mem.value, n, after);
    PairOk(s.disk, n, kind, next);
    PerformTwo(s.disk, AppendEvent(e), SaveState(next));
    assert (s.disk.log.lines + [Record(e)])[..|s.disk.log.lines|] == s.disk.log.lines;
  }

  lemma StartOk(d: Disk)
    requires DiskOk(d) && d.state.None?
    ensures WritesOk(d, StartWrites())
    ensures RunnerOk(Sys(PerformAll(d, StartWrites()), Some(Advance(FreshState, 1, Some(Received)))))
  {
    var d1 := Perform(d, SaveState(FreshState));
    assert WriteOk(d, SaveState(FreshState)) && DiskOk(d1);
    EmitOk(Sys(d1, Some(FreshState)), RunCreated, Some(Received));
    assert StartWrites()[1..] == EmitWrites(FreshState, RunCreated, Some(Received));
  }

  lemma OpKeepsOk(s: Sys, op: Op)
    requires SysOk(s) && Enabled(s, op)
    ensures WritesOk(s.disk, Writes(s, op))
    ensures RunnerOk(Sys(PerformAll(s.disk, Writes(s, op)), MemAfter(s, op)))
  {
    match op
    case Start => StartOk(s.disk);
    case Emit(kind, after) => EmitOk(s, kind, after);
    case ResumeRun => ResumeOk(s.disk);
    case Decide(input) => DecisionOk(s.disk, input);
    case OperatorEvent(k) => OperatorOk(s.disk, k);
    case _ => PlainOpKeepsOk(s, op);
  }

  lemma PlainOpKeepsOk(s: Sys, op: Op)
    requires SysOk(s) && Enabled(s, op)
    requires op.Checkpoint? || op.Evidence? || op.EscalationPackage? || op.Exit?
    ensures WritesOk(s.disk, Writes(s, op))
    ensures RunnerOk(Sys(PerformAll(s.disk, Writes(s, op)), MemAfter(s, op)))
  {
    if op.Checkpoint? {
      RunnerNext(s);
    }
  }

  lemma ResumeOk(d: Disk)
    requires DiskOk(d)
    ensures WritesOk(d, ResumeWrites(d))
  {
    if ResumeWrites(d) != [] {
      MarkOk(d, RunResumed);
    }
  }

  lemma OperatorOk(d: Disk, k: OperatorKind)
    requires DiskOk(d)
    ensures WritesOk(d, OperatorWrites(d, k))
  {
    if d.state.Some? {
      MarkOk(d, EventOf(k));
    }
  }

  lemma StepKeepsOk(s: Sys, s': Sys)
    requires SysOk(s) && Step(s, s')
    ensures SysOk(s')
  {
    var op, ending :| StepTo(s, op, ending, s');
    OpKeepsOk(s, op);
    match ending
    case Completes => CompleteKeepsOk(s.disk, Writes(s, op));
    case Crashes(k, cut) => CrashKeepsOk(s.disk, Writes(s, op), k, cut);
  }

  /** In every disk state any run reaches, crashes included, the readable events
      are numbered 1..n, the saved pointer is at most n unless the log is damaged,
      and at most one terminal human decision is on record, the one the snapshot shows. */
  lemma {:induction false} ReachableDisksOk(trace: seq<Sys>, i: nat)
    requires IsRun(trace) && SysOk(trace[0]) && i < |trace|
    ensures DiskOk(trace[i].disk) && SysOk(trace[i])
  {
    if i > 0 {
      ReachableDisksOk(trace, i - 1);
      StepKeepsOk(trace[i - 1], trace[i]);
    }
  }

  lemma EmptyDiskOk()
    ensures SysOk(Sys(Empty, None))
  {
    assert AllLines(Empty.log) == [];
  }

  /** A consistent run that waits for a human, with no verdict yet, is a valid start. */
  lemma WaitingDiskOk(d: Disk)
    requires d.state.Some? && IsConsistent(d, d.state.value) && d.state.value.workflow == At(AwaitingHuman)
    requires Verdicts(AllLines(d.log)) == []
    ensures SysOk(Sys(d, None))
  {
    assert d.state.value.lastSequence == 0 || d.state.value.lastSequence == |ReadLog(d.log).events|;
  }
}
