/** The objects that read and write a run directory: the recovery entry points and
    the runner's persistence facade. */
module Persistence {
  import opened Options
  import opened StateMachine
  import opened Journal
  import opened Recovery
  import opened RecoveryAnswers

  class RunDirectory {
    var disk: Disk

    constructor (disk: Disk)
      ensures this.disk == disk
    {
      this.disk := disk;
    }

    method LatestSequence() returns (n: Option<int>)
      ensures n == match NextSequence(disk.log) case None => None case Some(k) => Some(k - 1)
    {
      var read := ReadRaw(disk.log);
      match read
      case Unreadable => n := None;
      case Events(events, _) => n := Some(if events == [] then 0 else events[|events| - 1].sequence);
    }

    /** Append refuses a sequence number that is not the next one. */
    method AppendEvent(e: Event) returns (ok: bool)
      modifies this
      ensures ok <==> NextSequence(old(disk).log) == Some(e.sequence)
      ensures disk == if ok then Perform(old(disk), Write.AppendEvent(e)) else old(disk)
    {
      var last := LatestSequence();
      ok := last.Some? && e.sequence == last.value + 1;
      if ok {
        disk := disk.(log := Append(disk.log, e));
      }
    }

    method SaveRun(s: Snapshot)
      modifies this
      ensures disk == Perform(old(disk), SaveState(s))
    {
      disk := disk.(state := Some(s));
    }

    /** Append one event with the next number and point the snapshot at it. */
    method Mark(s: Snapshot, kind: EventKind)
      requires disk.state == Some(s)
      modifies this
      ensures disk == PerformAll(old(disk), MarkWrites(old(disk), kind))
    {
      var last := LatestSequence();
      if last.Some? {
        var n := last.value + 1;
        var appended := AppendEvent(Event(n, kind));
        SaveRun(s.(lastSequence := n));
        PerformTwo(old(disk), Write.AppendEvent(Event(n, kind)), SaveState(s.(lastSequence := n)));
      }
    }

    /** `None` is the error for a run without a snapshot. */
    method ResumeRun() returns (status: Option<RecoveryStatus>)
      modifies this
      ensures disk == PerformAll(old(disk), ResumeWrites(old(disk)))
      ensures status == if old(disk).state.Some? then Some(ResumeStatus(old(disk))) else None
      ensures Assessed(old(disk), status) && (status != Some(Resumable) ==> disk == old(disk))
      ensures status == Some(Resumable) && old(disk).log.tail.Ended? ==>
        Leaves(old(disk), disk, [Event(|old(disk).log.lines| + 1, RunResumed)], old(disk).state.value.workflow,
               old(disk).state.value.refs, old(disk).files)
    {
      ResumeAnswers(disk);
      ResumeLeaves(disk);
      if disk.state.None? {
        return None;
      }
      var s := disk.state.value;
      var issues := VerifyRunConsistency(disk, s);
      if issues != [] {
        return Some(Inconsistent);
      }
      var assessed := AssessRecovery(s.workflow);
      if assessed == Resumable {
        Mark(s, RunResumed);
      }
      status := Some(assessed);
    }

    method AppendOperatorEvent(k: OperatorKind)
      modifies this
      ensures disk == PerformAll(old(disk), OperatorWrites(old(disk), k))
      ensures old(disk).state.None? || ReadLog(old(disk).log).Unreadable? ==> disk == old(disk)
      ensures Intact(old(disk)) ==>
        Leaves(old(disk), disk, [Event(|old(disk).log.lines| + 1, OperatorKindLogged(k))],
               old(disk).state.value.workflow, old(disk).state.value.refs, old(disk).files)
    {
      if Intact(disk) {
        OperatorLeaves(disk, k);
      }
      if disk.state.Some? {
        Mark(disk.state.value, EventOf(k));
      }
    }

    method ApplyReviewerDecision(input: DecisionInput) returns (status: DecisionStatus)
      modifies this
      ensures status == DecisionStatusFor(old(disk), input)
      ensures disk == PerformAll(old(disk), DecisionWrites(old(disk), input))
      ensures Answered(old(disk), input, status)
      ensures status.Blocked? || status.InconsistentRun? ==> disk == old(disk)
      ensures (status.Applied? || status.Recorded?) && old(disk).log.tail.Ended? ==>
        Leaves(old(disk), disk, DecisionEvents(input.action.value, |old(disk).log.lines|),
               At(StatusAfter(input.action.value)), old(disk).state.value.refs[ReviewerSlot := DecisionFile],
               old(disk).files + {DecisionFile})
    {
      ghost var before := disk;
      status := Decide(input);
      DecisionAnswers(before, input);
      if status.Applied? || status.Recorded? {
        if before.log.tail.Ended? {
          DecisionLeaves(before, input);
        }
      } else {
        RefusedLeavesAll(before, input);
      }
    }

    /** The checks in their order, then the writes. */
    method Decide(input: DecisionInput) returns (status: DecisionStatus)
      modifies this
      ensures status == DecisionStatusFor(old(disk), input)
      ensures disk == PerformAll(old(disk), DecisionWrites(old(disk), input))
    {
      if disk.state.None? {
        return Blocked;
      }
      var s := disk.state.value;
      var issues := VerifyRunConsistency(disk, s);
      if issues != [] {
        return InconsistentRun;
      }
      if s.workflow != At(AwaitingHuman) || input.action.None? {
        return Blocked;
      }
      if disk.summary == Some(Malformed) {
        return InconsistentRun;
      }
      if ResolvedId(disk, input).None? {
        return Blocked;
      }
      if PackagedId(disk).Some? && PackagedId(disk) != ResolvedId(disk, input) {
        return Blocked;
      }
      assert Accepted(old(disk), input);
      RecordDecision(s, input.action.value);
      match input.action.value {
        case Approve => Mark(disk.state.value, HumanApproved);
        case Reject => Mark(disk.state.value, HumanRejected);
        case _ =>
      }
      PerformConcat(old(disk), RecordWrites(old(disk), input.action.value),
                    VerdictWrites(PerformAll(old(disk), RecordWrites(old(disk), input.action.value)),
                                  input.action.value));
      status := if input.action.value.Approve? || input.action.value.Reject? then Applied else Recorded;
    }

    method RecordDecision(s: Snapshot, a: ReviewerAction)
      requires disk.state == Some(s) && NextSequence(disk.log).Some?
      modifies this
      ensures disk == PerformAll(old(disk), RecordWrites(old(disk), a)) && disk.state.Some?
    {
      disk := disk.(files := disk.files + {DecisionFile});
      var last := LatestSequence();
      var e := Event(last.value + 1, HumanDecisionRecorded);
      var appended := AppendEvent(e);
      SaveRun(Decided(s, a, last.value + 1));
      ghost var d1 := Perform(old(disk), WriteFile(DecisionFile));
      PerformTwo(d1, Write.AppendEvent(e), SaveState(Decided(s, a, last.value + 1)));
      assert RecordWrites(old(disk), a)[1..] == [Write.AppendEvent(e), SaveState(Decided(s, a, last.value + 1))];
    }
  }

  /** What holds between the calls of a live runner. */
  ghost predicate LiveOk(d: Disk, mem: Option<Snapshot>) {
    mem.Some? && SysOk(Sys(d, mem)) && RefsExist(d, mem.value)
  }

  ghost predicate Logged(d: Disk, kind: EventKind) {
    exists i :: 0 <= i < |d.log.lines| && d.log.lines[i].Record? && d.log.lines[i].event.kind == kind
  }

  /** The kinds of the logged events, in order. */
  ghost function Kinds(d: Disk): seq<EventKind> {
    KindsOf(d.log.lines)
  }

  ghost function KindsOf(lines: seq<Line>): seq<EventKind> {
    if lines == [] then []
    else
      var last := lines[|lines| - 1];
      KindsOf(lines[..|lines| - 1]) + if last.Record? then [last.event.kind] else []
  }

  class RunPersistence {
    const dir: RunDirectory
    var durable: Option<Snapshot>

    constructor (dir: RunDirectory)
      ensures this.dir == dir && durable == None
    {
      this.dir, durable := dir, None;
    }

    ghost predicate Live()
      reads this, dir
    {
      LiveOk(dir.disk, durable)
    }

    /** Refuses a run id that already has a snapshot. */
    method StartRun() returns (ok: bool)
      requires SysOk(Sys(dir.disk, None))
      modifies this, dir
      ensures ok <==> old(dir.disk).state.None?
      ensures ok ==> Live() && dir.disk == PerformAll(old(dir.disk), StartWrites())
      ensures ok ==> durable == Some(Advance(FreshState, 1, Some(Received))) && Kinds(dir.disk) == [RunCreated]
      ensures ok ==>
        && dir.disk.log == Log([Record(Event(1, RunCreated))], Ended)
        && dir.disk.state == Some(Snapshot(At(Received), 1, map[]))
        && dir.disk.files == old(dir.disk).files && dir.disk.summary == old(dir.disk).summary
      ensures !ok ==> dir.disk == old(dir.disk)
    {
      if dir.disk.state.Some? {
        return false;
      }
      StartOk(dir.disk);
      CompleteKeepsOk(dir.disk, StartWrites());
      dir.SaveRun(FreshState);
      durable := Some(FreshState);
      assert StartWrites()[1..] == EmitWrites(FreshState, RunCreated, Some(Received));
      ghost var d1 := dir.disk;
      assert SysOk(Sys(d1, durable));
      Emit(RunCreated, Some(Received));
      ok := true;
    }

    method Emit(kind: EventKind, after: Option<RunStatus>)
      requires Live() && !IsVerdict(kind)
      modifies this, dir
      ensures Live() && dir.disk == PerformAll(old(dir.disk), EmitWrites(old(durable).value, kind, after))
      ensures durable == Some(Advance(old(durable).value, old(durable).value.lastSequence + 1, after))
      ensures dir.disk.files == old(dir.disk).files && dir.disk.summary == old(dir.disk).summary
      ensures Logged(dir.disk, kind) && forall k :: old(Logged(dir.disk, k)) ==> Logged(dir.disk, k)
      ensures Kinds(dir.disk) == Kinds(old(dir.disk)) + [kind]
      ensures var s := old(durable).value;
        && dir.disk.log == Log(old(dir.disk).log.lines + [Record(Event(s.lastSequence + 1, kind))], Ended)
        && durable == Some(Snapshot(if after.Some? then At(after.value) else s.workflow, s.lastSequence + 1, s.refs))
        && dir.disk.state == durable
    {
      var mem := durable.value;
      ghost var sys := Sys(dir.disk, durable);
      EmitOk(sys, kind, after);
      CompleteKeepsOk(sys.disk, EmitWrites(mem, kind, after));
      RunnerNext(sys);
      var e := Event(mem.lastSequence + 1, kind);
      var appended := dir.AppendEvent(e);
      durable := Some(Advance(mem, mem.lastSequence + 1, after));
      dir.SaveRun(durable.value);
      PerformTwo(sys.disk, Write.AppendEvent(e), SaveState(durable.value));
      LoggedAfter(sys.disk, dir.disk, e);
    }

    method Checkpoint(workflow: Option<RunStatus>, refs: map<Slot, File>)
      requires Live() && forall slot :: slot in refs ==> Exists(dir.disk, refs[slot])
      modifies this, dir
      ensures Live() && dir.disk == Perform(old(dir.disk), SaveState(Updated(old(durable).value, workflow, refs)))
      ensures durable == Some(Updated(old(durable).value, workflow, refs))
      ensures dir.disk.log == old(dir.disk).log && dir.disk.state == durable
      ensures durable.value.workflow == (if workflow.Some? then At(workflow.value) else old(durable).value.workflow)
      ensures durable.value.lastSequence == old(durable).value.lastSequence
      ensures durable.value.refs.Keys == old(durable).value.refs.Keys + refs.Keys
      ensures forall slot :: slot in durable.value.refs ==>
        durable.value.refs[slot] == if slot in refs then refs[slot] else old(durable).value.refs[slot]
    {
      ghost var sys := Sys(dir.disk, durable);
      OpKeepsOk(sys, Op.Checkpoint(workflow, refs));
      CompleteKeepsOk(sys.disk, Writes(sys, Op.Checkpoint(workflow, refs)));
      durable := Some(Updated(durable.value, workflow, refs));
      dir.SaveRun(durable.value);
    }

    method WriteEvidence(file: File)
      requires Live()
      modifies dir
      ensures Live() && dir.disk == Perform(old(dir.disk), WriteFile(file))
    {
      dir.disk := dir.disk.(files := dir.disk.files + {file});
    }

    method WritePackage(id: string)
      requires Live()
      modifies dir
      ensures Live() && dir.disk == Perform(old(dir.disk), WriteSummary(Package(Some(id))))
    {
      dir.disk := dir.disk.(summary := Some(Package(Some(id))));
    }
  }

  lemma LoggedAfter(d: Disk, d': Disk, e: Event)
    requires d.log.tail.Ended? && d'.log == Append(d.log, e)
    ensures Logged(d', e.kind) && forall k :: Logged(d, k) ==> Logged(d', k)
    ensures Kinds(d') == Kinds(d) + [e.kind]
  {
    assert d'.log.lines[..|d.log.lines|] == d.log.lines;
    assert d'.log.lines[|d.log.lines|] == Record(e);
    forall k | Logged(d, k) ensures Logged(d', k) {
      var i :| 0 <= i < |d.log.lines| && d.log.lines[i].Record? && d.log.lines[i].event.kind == k;
      assert d'.log.lines[i] == d.log.lines[i];
    }
  }

  /** A live journal passes the consistency check once the evidence its status needs is there. */
  lemma LiveIsConsistent(d: Disk, mem: Snapshot)
    requires LiveOk(d, Some(mem))
    requires mem.workflow == At(AwaitingHuman) ==> d.summary.Some?
    requires NeedsEvaluation(mem.workflow) ==> Logged(d, EvaluationCompleted)
    ensures IsConsistent(d, mem)
  {
    RunnerNext(Sys(d, Some(mem)));
    assert ReadLog(d.log) == Events(EventsOf(d.log.lines), false);
    if Logged(d, EvaluationCompleted) {
      var i :| 0 <= i < |d.log.lines| && d.log.lines[i].Record? && d.log.lines[i].event.kind == EvaluationCompleted;
      assert EventsOf(d.log.lines)[i].kind == EvaluationCompleted;
    }
  }
}
