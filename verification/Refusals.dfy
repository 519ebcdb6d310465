/** When the recovery entry points refuse to write, and what undoes a refusal. */
module Refusals {
  import opened Options
  import opened StateMachine
  import opened Journal
  import opened Recovery

  /** A reviewer call writes nothing exactly when it is blocked or finds the run inconsistent. */
  lemma RefusalWritesNothing(d: Disk, input: DecisionInput)
    ensures DecisionStatusFor(d, input) in {Blocked, InconsistentRun} <==> DecisionWrites(d, input) == []
  {
    if Accepted(d, input) {
      assert RecordWrites(d, input.action.value) != [];
    }
  }

  /** The journal ends in the middle of something: damaged text, or a snapshot
      whose non-zero pointer is not the number of the last event. */
  ghost predicate HalfWritten(d: Disk) {
    d.state.Some? &&
    (!Undamaged(d.log)
     || (d.state.value.lastSequence != 0 && ReadLog(d.log).events != []
         && d.state.value.lastSequence != |ReadLog(d.log).events|))
  }

  /** Both entry points refuse a half-written journal, so it stays as it is. */
  lemma {:induction false} HalfWrittenIsLeftAlone(trace: seq<Sys>, ops: seq<Op>, endings: seq<Ending>)
    requires trace != [] && |ops| == |endings| == |trace| - 1
    requires forall i :: 0 <= i < |ops| ==> ops[i].ResumeRun? || ops[i].Decide?
    requires forall i, j :: 0 <= i < j == i + 1 < |trace| ==> StepTo(trace[i], ops[i], endings[i], trace[j])
    requires HalfWritten(trace[0].disk)
    ensures trace[|trace| - 1].disk == trace[0].disk
  {
    if |trace| > 1 {
      var n := |trace| - 1;
      HalfWrittenIsLeftAlone(trace[..n], ops[..n - 1], endings[..n - 1]);
      var d := trace[n - 1].disk;
      assert StepTo(trace[n - 1], ops[n - 1], endings[n - 1], trace[n]);
      assert !IsConsistent(d, d.state.value);
      assert ResumeWrites(d) == [];
      assert ops[n - 1].Decide? ==> DecisionWrites(d, ops[n - 1].input) == [];
      var none: seq<Write> := [];
      assert none[..0] == none;
    }
  }

  /** On a reachable disk the consistency check fails exactly for half-written journals and
      for missing evidence: what it asks of numbering and pointer beyond that always holds. */
  lemma ConsistentIff(d: Disk)
    requires DiskOk(d) && d.state.Some?
    ensures IsConsistent(d, d.state.value) <==>
      && !HalfWritten(d) && RefsExist(d, d.state.value)
      && (d.state.value.workflow == At(AwaitingHuman) ==> d.summary.Some? || EscalationSlot in d.state.value.refs)
      && (var w := d.state.value.workflow;
          ReadLog(d.log).Events? && (w == At(Evaluated) || w == At(PolicyReview) || w == At(Approved)
                                     || w == At(Rejected) || w == At(AwaitingHuman)) ==>
            HasKind(ReadLog(d.log).events, EvaluationCompleted))
  {
  }

  // ------------------------------------------------ operator events

  /** An operator event repairs the pointer of a half-written journal whose text
      is intact and ends in a newline, and of no other one. */
  lemma OperatorEventClearsMismatch(d: Disk, k: OperatorKind)
    requires DiskOk(d) && HalfWritten(d)
    ensures HalfWritten(PerformAll(d, OperatorWrites(d, k))) <==> !(Undamaged(d.log) && d.log.tail.Ended?)
  {
    if NextSequence(d.log).Some? {
      var n := NextSequence(d.log).value;
      var e, s := Event(n, EventOf(k)), d.state.value.(lastSequence := n);
      PerformTwo(d, AppendEvent(e), SaveState(s));
      PointerAfterAppend(d.log, e);
      if Undamaged(d.log) {
        CleanRead(d.log);
        if d.log.tail.Ended? {
          AppendToClean(d.log, e);
        } else {
          AppendToWhole(d.log, e);
        }
      } else {
        DamageStays(d.log, e);
      }
    }
  }

  /** The disk after the evidence and the recorded event of an approval, but not its snapshot. */
  function Interrupted(d: Disk, n: int): Disk {
    Perform(Perform(d, WriteFile(DecisionFile)), AppendEvent(Event(n + 1, HumanDecisionRecorded)))
  }

  lemma InterruptedIsHalfWritten(d: Disk, input: DecisionInput)
    requires DiskOk(d) && d.log.tail.Ended? && Accepted(d, input) && d.state.value.lastSequence > 0
    ensures var n := |ReadLog(d.log).events|; var half := Interrupted(d, n);
      && CrashPoint(d, DecisionWrites(d, input), 2, NoBytes) == half && HalfWritten(half)
      && AllRecords(half.log.lines) && half.log.tail.Ended?
      && ReadLog(half.log) == Events(ReadLog(d.log).events + [Event(n + 1, HumanDecisionRecorded)], false)
  {
    HalfOf(d, input);
    OneMoreEvent(d.log, Event(|ReadLog(d.log).events| + 1, HumanDecisionRecorded));
  }

  lemma OneMoreEvent(log: Log, e: Event)
    requires Undamaged(log) && log.tail.Ended?
    ensures Append(log, e).tail.Ended? && AllRecords(Append(log, e).lines)
    ensures ReadLog(Append(log, e)) == Events(ReadLog(log).events + [e], false)
  {
    CleanRead(log);
    AppendToClean(log, e);
  }

  /** A reviewer's approval interrupted after its first event is refused from then
      on; one operator event later the opposite verdict goes through. */
  lemma ResyncForgetsADecision(d: Disk, input: DecisionInput, k: OperatorKind)
    requires DiskOk(d) && d.state.Some? && d.log.tail.Ended? && d.state.value.lastSequence > 0
    requires input.action == Some(Approve) && DecisionStatusFor(d, input) == Applied
    ensures
      var half := CrashPoint(d, DecisionWrites(d, input), 2, NoBytes);
      && HalfWritten(half) && DecisionWrites(half, input.(action := Some(Reject))) == []
      && DecisionStatusFor(PerformAll(half, OperatorWrites(half, k)), input.(action := Some(Reject))) == Applied
  {
    var half := Interrupted(d, |ReadLog(d.log).events|);
    InterruptedIsHalfWritten(d, input);
    ResyncedIsConsistent(d, input, k);
    OppositeApplies(d, PerformAll(half, OperatorWrites(half, k)), input);
  }

  /** Whoever may approve may reject, on any consistent disk with the same status and package. */
  lemma OppositeApplies(d: Disk, synced: Disk, input: DecisionInput)
    requires input.action == Some(Approve) && DecisionStatusFor(d, input) == Applied
    requires d.state.Some? && synced.state.Some? && IsConsistent(synced, synced.state.value)
    requires synced.state.value.workflow == d.state.value.workflow && synced.summary == d.summary
    ensures DecisionStatusFor(synced, input.(action := Some(Reject))) == Applied
  {
  }

  const Created := Log([Record(Event(1, RunCreated))], Ended)
  const Measured := Log(Created.lines + [Record(Event(2, EvaluationCompleted))], Ended)
  const AtReview := Snapshot(At(AwaitingHuman), 2, map[])

  /** A run that was evaluated, packaged and left to a human. */
  function Waiting(id: string): Disk {
    Disk(Some(AtReview), Measured, {}, Some(Package(Some(id))))
  }

  lemma StartedRun()
    ensures Step(Sys(Empty, None), Sys(Disk(Some(FreshState.(lastSequence := 1)), Created, {}, None),
                                       Some(FreshState.(lastSequence := 1))))
  {
    var s := FreshState.(lastSequence := 1);
    var d := Disk(Some(s), Created, {}, None);
    var rest := EmitWrites(FreshState, RunCreated, Some(Received));
    var d1 := Perform(Empty, SaveState(FreshState));
    assert StartWrites()[1..] == rest;
    PerformTwo(d1, rest[0], rest[1]);
    assert d1.log.lines + [Record(Event(1, RunCreated))] == Created.lines;
    assert StepTo(Sys(Empty, None), Start, Completes, Sys(d, Some(s)));
  }

  lemma MeasuredRun()
    ensures var s1 := FreshState.(lastSequence := 1);
      Step(Sys(Disk(Some(s1), Created, {}, None), Some(s1)),
           Sys(Disk(Some(AtReview), Measured, {}, None), Some(AtReview)))
  {
    var s1 := FreshState.(lastSequence := 1);
    var d1, d2 := Disk(Some(s1), Created, {}, None), Disk(Some(AtReview), Measured, {}, None);
    var ws := EmitWrites(s1, EvaluationCompleted, Some(AwaitingHuman));
    PerformTwo(d1, ws[0], ws[1]);
    assert StepTo(Sys(d1, Some(s1)), Emit(EvaluationCompleted, Some(AwaitingHuman)), Completes,
                  Sys(d2, Some(AtReview)));
  }

  lemma PackagedRun(id: string)
    ensures Step(Sys(Disk(Some(AtReview), Measured, {}, None), Some(AtReview)), Sys(Waiting(id), Some(AtReview)))
    ensures Step(Sys(Waiting(id), Some(AtReview)), Sys(Waiting(id), None))
  {
    var d := Disk(Some(AtReview), Measured, {}, None);
    var p := WriteSummary(Package(Some(id)));
    assert PerformAll(d, [p]) == Perform(d, p);
    assert StepTo(Sys(d, Some(AtReview)), EscalationPackage(Package(Some(id))), Completes,
                  Sys(Waiting(id), Some(AtReview)));
    assert StepTo(Sys(Waiting(id), Some(AtReview)), Exit, Completes, Sys(Waiting(id), None));
  }

  /** Such a run is reached from nothing, and a reviewer may approve it. */
  lemma WaitingIsReached(id: string) returns (trace: seq<Sys>)
    ensures IsRun(trace) && trace[0] == Sys(Empty, None) && trace[|trace| - 1] == Sys(Waiting(id), None)
    ensures DiskOk(Waiting(id)) && Waiting(id).log.tail.Ended? && Waiting(id).state.value.lastSequence > 0
    ensures DecisionStatusFor(Waiting(id), DecisionInput(Some(Approve), None)) == Applied
  {
    var s1 := FreshState.(lastSequence := 1);
    StartedRun();
    MeasuredRun();
    PackagedRun(id);
    trace := [Sys(Empty, None), Sys(Disk(Some(s1), Created, {}, None), Some(s1)),
              Sys(Disk(Some(AtReview), Measured, {}, None), Some(AtReview)),
              Sys(Waiting(id), Some(AtReview)), Sys(Waiting(id), None)];
    assert Step(trace[0], trace[1]) && Step(trace[1], trace[2]) && Step(trace[2], trace[3]) && Step(trace[3], trace[4]);
    assert IsRun(trace);
    EmptyDiskOk();
    ReachableDisksOk(trace, 4);
    WaitingMayBeApproved(id);
  }

  lemma WaitingMayBeApproved(id: string)
    ensures DecisionStatusFor(Waiting(id), DecisionInput(Some(Approve), None)) == Applied
  {
    var events := EventsOf(Measured.lines);
    assert AllLines(Measured) == Measured.lines;
    assert ReadLog(Measured) == Events(events, false);
    assert events[1].kind == EvaluationCompleted;
  }

  lemma ResyncedIsConsistent(d: Disk, input: DecisionInput, k: OperatorKind)
    requires DiskOk(d) && d.log.tail.Ended? && Accepted(d, input) && d.state.value.lastSequence > 0
    ensures var half := Interrupted(d, |ReadLog(d.log).events|);
      var synced := PerformAll(half, OperatorWrites(half, k));
      && synced.state.Some? && IsConsistent(synced, synced.state.value)
      && synced.state.value.workflow == d.state.value.workflow && synced.summary == d.summary
  {
    var n := |ReadLog(d.log).events|;
    var half := Interrupted(d, n);
    InterruptedIsHalfWritten(d, input);
    var e2 := Event(n + 2, EventOf(k));
    ResyncWrites(half, n + 2, k);
    AppendToClean(half.log, e2);
    CleanRead(half.log);
    SyncedConsistent(d, PerformAll(half, OperatorWrites(half, k)), Event(n + 1, HumanDecisionRecorded), e2);
  }

  lemma ResyncWrites(d: Disk, n: int, k: OperatorKind)
    requires d.state.Some? && NextSequence(d.log) == Some(n)
    ensures PerformAll(d, OperatorWrites(d, k))
         == Perform(Perform(d, AppendEvent(Event(n, EventOf(k)))), SaveState(d.state.value.(lastSequence := n)))
  {
    PerformTwo(d, AppendEvent(Event(n, EventOf(k))), SaveState(d.state.value.(lastSequence := n)));
  }

  lemma HalfOf(d: Disk, input: DecisionInput)
    requires Accepted(d, input)
    ensures CrashPoint(d, DecisionWrites(d, input), 2, NoBytes)
         == Perform(Perform(d, WriteFile(DecisionFile)),
                    AppendEvent(Event(|ReadLog(d.log).events| + 1, HumanDecisionRecorded)))
  {
    var ws := DecisionWrites(d, input);
    var e := Event(|ReadLog(d.log).events| + 1, HumanDecisionRecorded);
    assert ws[..2] == [WriteFile(DecisionFile), AppendEvent(e)];
    PerformTwo(d, WriteFile(DecisionFile), AppendEvent(e));
  }

  lemma SyncedConsistent(d: Disk, synced: Disk, e: Event, e2: Event)
    requires d.state.Some? && IsConsistent(d, d.state.value)
    requires ReadLog(synced.log) == Events(ReadLog(d.log).events + [e] + [e2], false)
    requires e.sequence == |ReadLog(d.log).events| + 1 && e2.sequence == |ReadLog(d.log).events| + 2
    requires synced.state == Some(d.state.value.(lastSequence := e2.sequence))
    requires synced.summary == d.summary && d.files <= synced.files
    ensures IsConsistent(synced, synced.state.value)
  {
    var before, after := ReadLog(d.log).events, ReadLog(synced.log).events;
    assert forall i :: 0 <= i < |before| ==> after[i] == before[i];
    if HasKind(before, EvaluationCompleted) {
      var i :| 0 <= i < |before| && before[i].kind == EvaluationCompleted;
      assert after[i].kind == EvaluationCompleted;
    }
  }

  // ------------------------------------------------ the unterminated record

  /** The saved pointer does not run ahead of the events that can be read. */
  ghost predicate PointerWithin(d: Disk) {
    d.state.Some? && ReadLog(d.log).Events? ==> d.state.value.lastSequence <= |ReadLog(d.log).events|
  }

  /** `resume_run` keeps the pointer within the log if and only if it writes
      nothing or the last record had its newline. */
  lemma ResumeKeepsPointerIff(d: Disk)
    requires DiskOk(d) && d.state.Some? && PointerWithin(d)
    ensures PointerWithin(PerformAll(d, ResumeWrites(d))) <==> ResumeWrites(d) == [] || d.log.tail.Ended?
  {
    if ResumeWrites(d) != [] {
      var n := NextSequence(d.log).value;
      var e := Event(n, RunResumed);
      PerformTwo(d, AppendEvent(e), SaveState(d.state.value.(lastSequence := n)));
      CleanRead(d.log);
      if d.log.tail.Ended? {
        AppendToClean(d.log, e);
      } else {
        AppendToWhole(d.log, e);
      }
    }
  }

  /** The directory left when only the newline of the very first record was lost. */
  const Unterminated := Disk(Some(FreshState), Log([], Whole(Event(1, RunCreated))), {}, None)

  lemma UnterminatedIsReached()
    ensures Step(Sys(Empty, None), Sys(Unterminated, None))
    ensures DiskOk(Unterminated)
  {
    var ws := StartWrites();
    assert ws[..1] == [SaveState(FreshState)];
    var one := [SaveState(FreshState)];
    assert PerformAll(Empty, one) == Perform(Empty, one[0]);
    assert CrashPoint(Empty, ws, 1, AllButNewline) == Unterminated;
    var s0, s1 := Sys(Empty, None), Sys(Unterminated, None);
    assert StepTo(s0, Start, Crashes(1, AllButNewline), s1);
    EmptyDiskOk();
    StepKeepsOk(s0, s1);
  }

  /** A fresh run whose only record lacks its newline passes every check of a resume. */
  lemma LoneRecordIsResumed(d: Disk, e: Event)
    requires d.log == Log([], Whole(e)) && e.sequence == 1 && d.state.Some?
    requires d.state.value.workflow == At(Received) && d.state.value.lastSequence == 0 && d.state.value.refs == map[]
    ensures ResumeWrites(d) != [] && PointerWithin(d)
  {
    LoneRecordReads(d.log, e);
    assert IsConsistent(d, d.state.value);
  }

  lemma LoneRecordReads(log: Log, e: Event)
    requires log == Log([], Whole(e))
    ensures ReadLog(log) == Events([e], false)
  {
    var all := AllLines(log);
    assert all == [Record(e)];
    assert EventsOf(all) == [e];
  }

  /** A crash can leave the first record of a run without its newline; resuming
      that run then destroys the record and points past the end of the log. */
  lemma ResumeAfterUnterminatedFirstRecord() returns (trace: seq<Sys>)
    ensures IsRun(trace) && trace[0] == Sys(Empty, None) && !PointerWithin(trace[|trace| - 1].disk)
  {
    UnterminatedIsReached();
    LoneRecordIsResumed(Unterminated, Event(1, RunCreated));
    var after := ResumeBreaks(Unterminated);
    trace := [Sys(Empty, None), Sys(Unterminated, None), after];
    assert Step(trace[0], trace[1]) && Step(trace[1], trace[2]);
  }

  lemma ResumeBreaks(d: Disk) returns (after: Sys)
    requires DiskOk(d) && d.state.Some? && PointerWithin(d) && ResumeWrites(d) != [] && !d.log.tail.Ended?
    ensures Step(Sys(d, None), after) && !PointerWithin(after.disk)
  {
    ResumeKeepsPointerIff(d);
    after := Sys(PerformAll(d, ResumeWrites(d)), None);
    assert StepTo(Sys(d, None), ResumeRun, Completes, after);
  }
}
