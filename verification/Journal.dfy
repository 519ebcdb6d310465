/** The durable journal of a run: an append-only event log, an atomically replaced
    state snapshot and evidence files. A crash can cut an append short anywhere. */
module Journal {
  import opened Options
  import opened StateMachine

  datatype EventKind =
    | RunCreated | RunResumed | ContextBuilt | FailureClassified | PlanCreated | AttemptStarted
    | ToolCalled | ToolCompleted | ProposalCreated | SandboxStarted | SandboxCompleted
    | EvaluationCompleted | RetryDecided | RetryStarted | RetryStopped | PolicyReviewStarted
    | PolicyApproved | PolicyRejected | PolicyEscalated | EscalationPackageCreated | AwaitingHumanEvent
    | HumanDecisionRecorded | HumanApproved | HumanRejected
    | TargetPatchApplied | TargetBranchPushed | TargetPrOpened | RepairVerificationCompleted
    | RunSucceeded | RunFailed

  datatype Event = Event(sequence: int, kind: EventKind)

  // ---------------------------------------------------------------- the log

  datatype Line = Record(event: Event) | Garbage

  /** The text behind the last newline: nothing, a whole record whose newline was
      lost, or a piece of a record. */
  datatype Tail = Ended | Whole(event: Event) | Fragment

  datatype Log = Log(lines: seq<Line>, tail: Tail)

  datatype ReadResult = Events(events: seq<Event>, torn: bool) | Unreadable

  function AllLines(log: Log): seq<Line> {
    log.lines + match log.tail
      case Ended => []
      case Whole(e) => [Record(e)]
      case Fragment => [Garbage]
  }

  ghost predicate AllRecords(lines: seq<Line>) {
    forall i :: 0 <= i < |lines| ==> lines[i].Record?
  }

  ghost function EventsOf(lines: seq<Line>): (events: seq<Event>)
    requires AllRecords(lines)
    ensures |events| == |lines| && forall i :: 0 <= i < |lines| ==> events[i] == lines[i].event
  {
    seq(|lines|, i requires 0 <= i < |lines| => lines[i].event)
  }

  /** Only a damaged last line is tolerated. */
  ghost function ReadLines(lines: seq<Line>): ReadResult {
    if AllRecords(lines) then Events(EventsOf(lines), false)
    else if AllRecords(lines[..|lines| - 1]) then Events(EventsOf(lines[..|lines| - 1]), true)
    else Unreadable
  }

  ghost function ReadLog(log: Log): ReadResult {
    ReadLines(AllLines(log))
  }

  ghost predicate EndsInGarbage(log: Log) {
    log.lines != [] && log.lines[|log.lines| - 1].Garbage?
  }

  ghost predicate DamagedInside(log: Log) {
    exists i :: 0 <= i < |log.lines| && log.lines[i].Garbage? && (i < |log.lines| - 1 || !log.tail.Ended?)
  }

  /** Damage in front of other text makes the log unreadable; at its very end it is only left out. */
  ghost predicate ReadAnswers(log: Log, r: ReadResult) {
    && (r.Unreadable? <==> DamagedInside(log))
    && (r.Events? ==>
          && (r.torn <==> log.tail.Fragment? || EndsInGarbage(log))
          && |r.events| == |log.lines| + (if log.tail.Whole? then 1 else 0) - (if EndsInGarbage(log) then 1 else 0)
          && (forall i :: 0 <= i < |r.events| && i < |log.lines| ==> log.lines[i] == Record(r.events[i]))
          && (log.tail.Whole? ==> r.events[|log.lines|] == log.tail.event))
  }

  lemma ReadMeans(log: Log)
    ensures ReadAnswers(log, ReadLog(log))
  {
    var all := AllLines(log);
    assert forall i :: 0 <= i < |log.lines| ==> all[i] == log.lines[i];
    if !log.tail.Ended? {
      assert all[..|all| - 1] == log.lines;
    }
    UnreadableIff(log);
    if ReadLog(log).Events? {
      TornIff(log);
    }
  }

  lemma GarbageEndIsLast(log: Log)
    requires ReadLog(log).Events? && EndsInGarbage(log)
    ensures log.tail.Ended?
  {
    UnreadableIff(log);
    assert log.lines[|log.lines| - 1].Garbage?;
  }

  lemma TornIff(log: Log)
    requires ReadLog(log).Events?
    ensures ReadLog(log).torn <==> log.tail.Fragment? || EndsInGarbage(log)
    ensures EndsInGarbage(log) ==> log.tail.Ended?
  {
    var all := AllLines(log);
    if EndsInGarbage(log) {
      GarbageEndIsLast(log);
    }
    if log.tail.Fragment? {
      assert all[|log.lines|] == Garbage;
    }
    if EndsInGarbage(log) {
      assert all[|log.lines| - 1] == Garbage;
    }
    if ReadLog(log).torn {
      assert all[|all| - 1] == Garbage by {
        assert forall i :: 0 <= i < |all| - 1 ==> all[i] == all[..|all| - 1][i];
      }
    }
  }

  lemma UnreadableIff(log: Log)
    ensures ReadLog(log).Unreadable? <==> DamagedInside(log)
  {
    var all := AllLines(log);
    if DamagedInside(log) {
      var i :| 0 <= i < |log.lines| && log.lines[i].Garbage? && (i < |log.lines| - 1 || !log.tail.Ended?);
      assert all[i].Garbage? && all[..|all| - 1][i].Garbage?;
    } else {
      assert forall i :: 0 <= i < |all| - 1 ==> all[i] == log.lines[i];
      assert all == [] || AllRecords(all[..|all| - 1]);
    }
  }

  method ReadRaw(log: Log) returns (r: ReadResult)
    ensures r == ReadLog(log) && ReadAnswers(log, r)
  {
    ReadMeans(log);
    r := Parse(log);
  }

  method Parse(log: Log) returns (r: ReadResult)
    ensures r == ReadLog(log)
  {
    var lines := AllLines(log);
    var events: seq<Event> := [];
    for i := 0 to |lines|
      invariant |events| == i && forall k :: 0 <= k < i ==> lines[k] == Record(events[k])
    {
      match lines[i]
      case Record(e) =>
        events := events + [e];
      case Garbage =>
        if i == |lines| - 1 {
          assert events == EventsOf(lines[..i]);
          return Events(events, true);
        }
        assert !AllRecords(lines[..|lines| - 1]) by {
          assert lines[..|lines| - 1][i] == Garbage;
        }
        return Unreadable;
    }
    assert events == EventsOf(lines);
    r := Events(events, false);
  }

  /** The next sequence number, when the log can be read at all. */
  ghost function NextSequence(log: Log): Option<int> {
    match ReadLog(log)
    case Unreadable => None
    case Events(events, _) => Some(if events == [] then 1 else events[|events| - 1].sequence + 1)
  }

  /** A complete append: behind a leftover tail the new text only makes one unreadable line. */
  function Append(log: Log, e: Event): Log {
    match log.tail
    case Ended => Log(log.lines + [Record(e)], Ended)
    case _ => Log(log.lines + [Garbage], Ended)
  }

  /** How much of an append reached the disk before a crash. */
  datatype Cut = NoBytes | SomeBytes | AllButNewline

  function TornAppend(log: Log, e: Event, cut: Cut): Log {
    if cut.NoBytes? then log
    else if log.tail.Ended? && cut.AllButNewline? then log.(tail := Whole(e))
    else log.(tail := Fragment)
  }

  // -------------------------------------------------------------- snapshots

  /** `OtherWorkflow` is any text that names no status. */
  datatype Workflow = At(status: RunStatus) | PersistenceError | OtherWorkflow(name: string)

  datatype Slot =
    | FailureEventSlot | ClassificationSlot | PlanSlot | ProposalSlot | EvaluationSlot
    | PolicySlot | RetrySlot | EscalationSlot | ReviewerSlot

  datatype File =
    | FailureEventFile | ClassificationFile | PlanFile(n: nat) | ToolFile(n: nat, step: nat) | ProposalFile(n: nat)
    | PatchFile(n: nat) | SandboxFile(n: nat) | EvaluationFile(n: nat) | AttemptFile(n: nat) | RetryFile(n: nat)
    | PolicyFile | SummaryFile | DecisionFile

  datatype Snapshot = Snapshot(workflow: Workflow, lastSequence: int, refs: map<Slot, File>)

  /** What `escalation/summary.json` holds. */
  datatype Summary = Malformed | Package(escalationId: Option<string>)

  datatype Disk = Disk(state: Option<Snapshot>, log: Log, files: set<File>, summary: Option<Summary>)

  const Empty := Disk(None, Log([], Ended), {}, None)

  predicate Exists(d: Disk, f: File) {
    if f.SummaryFile? then d.summary.Some? else f in d.files
  }

  // ------------------------------------------------------------ consistency

  datatype Issue =
    | TrailingCorruptEvent | AuditRead | SequenceGap(expected: int) | StateEventSequenceMismatch
    | MissingArtifact(slot: Slot) | MissingEscalation | MissingEvalEvent

  ghost predicate Numbered(events: seq<Event>) {
    forall i :: 0 <= i < |events| ==> events[i].sequence == i + 1
  }

  /** Statuses that presuppose a recorded evaluation. */
  predicate NeedsEvaluation(w: Workflow) {
    w.At? && (w.status.Evaluated? || w.status.PolicyReview? || w.status.Approved? || w.status.Rejected?
              || w.status.AwaitingHuman?)
  }

  ghost predicate RefsExist(d: Disk, s: Snapshot) {
    forall slot :: slot in s.refs ==> Exists(d, s.refs[slot])
  }

  ghost predicate HasKind(events: seq<Event>, kind: EventKind) {
    exists i :: 0 <= i < |events| && events[i].kind == kind
  }

  /** What a run directory must look like for the recovery entry points to act on it. */
  ghost predicate IsConsistent(d: Disk, s: Snapshot) {
    && ReadLog(d.log).Events? && !ReadLog(d.log).torn
    && (var events := ReadLog(d.log).events;
        && Numbered(events)
        && (s.lastSequence != 0 && events != [] ==> s.lastSequence == |events|)
        && RefsExist(d, s)
        && (s.workflow == At(AwaitingHuman) ==> d.summary.Some? || EscalationSlot in s.refs)
        && (NeedsEvaluation(s.workflow) ==> HasKind(events, EvaluationCompleted)))
  }

  const AllSlots := [FailureEventSlot, ClassificationSlot, PlanSlot, ProposalSlot, EvaluationSlot,
                     PolicySlot, RetrySlot, EscalationSlot, ReviewerSlot]

  lemma SlotListed(slot: Slot)
    ensures exists i :: 0 <= i < |AllSlots| && AllSlots[i] == slot
  {
    var i := match slot
      case FailureEventSlot => 0 case ClassificationSlot => 1 case PlanSlot => 2 case ProposalSlot => 3
      case EvaluationSlot => 4 case PolicySlot => 5 case RetrySlot => 6 case EscalationSlot => 7
      case ReviewerSlot => 8;
    assert AllSlots[i] == slot;
  }

  /** `k` is the first number that is not where it belongs. */
  ghost predicate FirstGap(events: seq<Event>, k: int) {
    && 1 <= k <= |events| && events[k - 1].sequence != k
    && forall i :: 0 <= i < k - 1 ==> events[i].sequence == i + 1
  }

  method CheckSequence(events: seq<Event>) returns (issues: seq<Issue>)
    ensures issues == [] <==> Numbered(events)
    ensures forall x :: x in issues <==> x.SequenceGap? && FirstGap(events, x.expected)
  {
    var expected := 1;
    for i := 0 to |events|
      invariant expected == i + 1 && forall k :: 0 <= k < i ==> events[k].sequence == k + 1
    {
      if events[i].sequence != expected {
        return [SequenceGap(expected)];
      }
      expected := expected + 1;
    }
    issues := [];
  }

  method CheckRefs(d: Disk, s: Snapshot) returns (issues: seq<Issue>)
    ensures issues == [] <==> RefsExist(d, s)
    ensures forall x :: x in issues <==> x.MissingArtifact? && Dangling(d, s, x.slot)
  {
    issues := [];
    for i := 0 to |AllSlots|
      invariant issues == [] <==>
        forall k :: 0 <= k < i && AllSlots[k] in s.refs ==> Exists(d, s.refs[AllSlots[k]])
      invariant forall x :: x in issues <==> x.MissingArtifact? && Dangling(d, s, x.slot) && x.slot in AllSlots[..i]
    {
      assert AllSlots[..i + 1] == AllSlots[..i] + [AllSlots[i]];
      var slot := AllSlots[i];
      if slot in s.refs && !Exists(d, s.refs[slot]) {
        issues := issues + [MissingArtifact(slot)];
      }
    }
    assert AllSlots[..|AllSlots|] == AllSlots;
    forall slot ensures slot in AllSlots {
      SlotListed(slot);
    }
    if issues == [] {
      forall slot | slot in s.refs ensures Exists(d, s.refs[slot]) {
        assert MissingArtifact(slot) !in issues;
      }
    }
  }

  /** A reference to a file that is not there. */
  ghost predicate Dangling(d: Disk, s: Snapshot, slot: Slot) {
    slot in s.refs && !Exists(d, s.refs[slot])
  }

  /** The events the check gets to see. */
  ghost function SeenEvents(d: Disk): seq<Event> {
    if ReadLog(d.log).Events? then ReadLog(d.log).events else []
  }

  ghost predicate LastMismatch(s: Snapshot, events: seq<Event>) {
    s.lastSequence != 0 && events != [] && s.lastSequence != events[|events| - 1].sequence
  }

  /** Exactly when each issue is reported. */
  ghost predicate Reported(d: Disk, s: Snapshot, issues: seq<Issue>) {
    && (AuditRead in issues <==> ReadLog(d.log).Unreadable?)
    && (TrailingCorruptEvent in issues <==> ReadLog(d.log).Events? && ReadLog(d.log).torn)
    && (forall k :: SequenceGap(k) in issues <==> FirstGap(SeenEvents(d), k))
    && (StateEventSequenceMismatch in issues <==> LastMismatch(s, SeenEvents(d)))
    && (forall slot :: MissingArtifact(slot) in issues <==> Dangling(d, s, slot))
    && (MissingEscalation in issues <==>
          s.workflow == At(AwaitingHuman) && d.summary.None? && EscalationSlot !in s.refs)
    && (MissingEvalEvent in issues <==>
          (!HasKind(SeenEvents(d), EvaluationCompleted)
           && (s.workflow == At(Evaluated) || s.workflow == At(PolicyReview) || s.workflow == At(Approved)
               || s.workflow == At(Rejected) || s.workflow == At(AwaitingHuman))))
  }

  method VerifyRunConsistency(d: Disk, s: Snapshot) returns (issues: seq<Issue>)
    ensures issues == [] <==> IsConsistent(d, s)
    ensures Reported(d, s, issues)
  {
    var events, log := CheckLog(d);
    var gaps := CheckSequence(events);
    var state := CheckState(d, s, events);
    issues := log + gaps + state;
    assert forall x :: x in issues <==> x in log || x in gaps || x in state;
    NothingListed(log, gaps, state);
  }

  lemma NothingListed(log: seq<Issue>, gaps: seq<Issue>, state: seq<Issue>)
    ensures log + gaps + state == [] <==> log == [] && gaps == [] && state == []
  {
  }

  /** What can be read of the log. */
  method CheckLog(d: Disk) returns (events: seq<Event>, issues: seq<Issue>)
    ensures events == SeenEvents(d)
    ensures issues == [] <==> ReadLog(d.log).Events? && !ReadLog(d.log).torn
    ensures forall x :: x in issues <==>
      ((x.AuditRead? && ReadLog(d.log).Unreadable?)
       || (x.TrailingCorruptEvent? && ReadLog(d.log).Events? && ReadLog(d.log).torn))
  {
    var read := ReadRaw(d.log);
    match read {
      case Unreadable => events, issues := [], [AuditRead];
      case Events(found, torn) => events, issues := found, if torn then [TrailingCorruptEvent] else [];
    }
  }

  /** The snapshot against the events and the evidence. */
  method CheckState(d: Disk, s: Snapshot, events: seq<Event>) returns (issues: seq<Issue>)
    ensures issues == [] <==>
      && !LastMismatch(s, events) && RefsExist(d, s)
      && (s.workflow == At(AwaitingHuman) ==> d.summary.Some? || EscalationSlot in s.refs)
      && (NeedsEvaluation(s.workflow) ==> HasKind(events, EvaluationCompleted))
    ensures forall x :: x in issues <==>
      || (x.StateEventSequenceMismatch? && LastMismatch(s, events))
      || (x.MissingArtifact? && Dangling(d, s, x.slot))
      || (x.MissingEscalation? && s.workflow == At(AwaitingHuman) && d.summary.None? && EscalationSlot !in s.refs)
      || (x.MissingEvalEvent? && NeedsEvaluation(s.workflow) && !HasKind(events, EvaluationCompleted))
  {
    var missing := CheckRefs(d, s);
    var mismatch :=
      if s.lastSequence != 0 && events != [] && s.lastSequence != events[|events| - 1].sequence
      then [StateEventSequenceMismatch] else [];
    var escalation :=
      if s.workflow == At(AwaitingHuman) && d.summary.None? && EscalationSlot !in s.refs
      then [MissingEscalation] else [];
    var evaluated := exists i :: 0 <= i < |events| && events[i].kind == EvaluationCompleted;
    var evaluation := if NeedsEvaluation(s.workflow) && !evaluated then [MissingEvalEvent] else [];
    issues := mismatch + missing + escalation + evaluation;
  }

  // ----------------------------------------------------- single disk writes

  datatype Write = SaveState(s: Snapshot) | AppendEvent(e: Event) | WriteFile(f: File) | WriteSummary(p: Summary)

  function Perform(d: Disk, w: Write): Disk {
    match w
    case SaveState(s) => d.(state := Some(s))
    case AppendEvent(e) => d.(log := Append(d.log, e))
    case WriteFile(f) => d.(files := d.files + {f})
    case WriteSummary(p) => d.(summary := Some(p))
  }

  function PerformAll(d: Disk, ws: seq<Write>): Disk
    decreases |ws|
  {
    if ws == [] then d else PerformAll(Perform(d, ws[0]), ws[1..])
  }

  /** A crash inside a write; replacing a file is atomic, appending is not. */
  function Torn(d: Disk, w: Write, cut: Cut): Disk {
    if w.AppendEvent? then d.(log := TornAppend(d.log, w.e, cut)) else d
  }

  // ------------------------------------------------------- facts on the log

  /** Appending to a log that ends in a newline adds one event. */
  lemma AppendToClean(log: Log, e: Event)
    requires log.tail.Ended? && AllRecords(log.lines)
    ensures ReadLog(log) == Events(EventsOf(log.lines), false)
    ensures ReadLog(Append(log, e)) == Events(EventsOf(log.lines) + [e], false)
  {
    assert AllLines(log) == log.lines;
    assert AllLines(Append(log, e)) == log.lines + [Record(e)];
    assert EventsOf(log.lines + [Record(e)]) == EventsOf(log.lines) + [e];
  }

  /** A log that reads without damage holds only records. */
  lemma CleanRead(log: Log)
    requires ReadLog(log).Events? && !ReadLog(log).torn
    ensures AllRecords(log.lines) && !log.tail.Fragment?
    ensures log.tail.Ended? ==> ReadLog(log).events == EventsOf(log.lines)
    ensures log.tail.Whole? ==> ReadLog(log).events == EventsOf(log.lines) + [log.tail.event]
  {
    var all := AllLines(log);
    assert AllRecords(all);
    assert forall i :: 0 <= i < |log.lines| ==> all[i] == log.lines[i];
    if !log.tail.Ended? {
      assert all[|log.lines|] == all[|all| - 1];
    }
    assert EventsOf(all) == ReadLog(log).events;
  }

  /** A damaged log never heals: later appends leave it torn or unreadable. */
  lemma DamageStays(log: Log, e: Event)
    requires ReadLog(log).Events? ==> ReadLog(log).torn
    ensures ReadLog(Append(log, e)).Events? ==> ReadLog(Append(log, e)).torn
    ensures ReadLog(Append(log, e)).Events? ==>
      ReadLog(log).Events? && ReadLog(Append(log, e)).events == ReadLog(log).events
  {
    var all, after := AllLines(log), AllLines(Append(log, e));
    if AllRecords(log.lines) {
      assert log.tail.Ended? ==> all == log.lines;
      assert log.tail.Fragment?;
      assert after == log.lines + [Garbage];
      assert after[|after| - 1] == Garbage && all == after;
    } else {
      var i :| 0 <= i < |log.lines| && log.lines[i].Garbage?;
      assert after[i] == Garbage && !AllRecords(after);
      assert after[..|after| - 1][i] == Garbage;
      assert !AllRecords(after[..|after| - 1]);
    }
  }

  /** Text appended behind an unterminated record destroys that record. */
  lemma AppendToWhole(log: Log, e: Event)
    requires log.tail.Whole? && AllRecords(log.lines)
    ensures ReadLog(Append(log, e)) == Events(EventsOf(log.lines), true)
  {
    var after := AllLines(Append(log, e));
    assert after == log.lines + [Garbage];
    assert after[|after| - 1] == Garbage && after[..|after| - 1] == log.lines;
  }
}
