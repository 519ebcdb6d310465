/** When the saved pointer runs past the end of the log: exactly the snapshots saved
    behind an append that met unterminated text. */
module PointerBound {
  import opened Options
  import opened StateMachine
  import opened Journal
  import opened Recovery
  import opened Refusals

  /** Readable records that have their newline. */
  ghost function Kept(log: Log): int
    requires ReadLog(log).Events?
  {
    |ReadLog(log).events| - if log.tail.Whole? then 1 else 0
  }

  /** The pointer is within the terminated records of a readable log. */
  ghost predicate Settled(d: Disk) {
    d.state.Some? && ReadLog(d.log).Events? ==> d.state.value.lastSequence <= Kept(d.log)
  }

  /** Records lost or added by an append, complete or torn, never reach below the terminated ones. */
  lemma AppendKeepsRecords(log: Log, e: Event, cut: Cut)
    ensures ReadLog(Append(log, e)).Events? ==> ReadLog(log).Events? && Kept(Append(log, e)) >= Kept(log)
    ensures ReadLog(TornAppend(log, e, cut)).Events? ==>
      ReadLog(log).Events? && Kept(TornAppend(log, e, cut)) >= Kept(log)
  {
    if Undamaged(log) {
      CleanRead(log);
      FragmentReads(log);
      if log.tail.Ended? {
        AppendToClean(log, e);
      } else {
        AppendToWhole(log, e);
      }
    } else {
      DamageStays(log, e);
      if log.tail.Ended? {
        TornWholeStaysDamaged(log, e);
      }
    }
  }

  lemma TornWholeStaysDamaged(log: Log, e: Event)
    requires !Undamaged(log) && log.tail.Ended?
    ensures ReadLog(log.(tail := Whole(e))).Unreadable?
  {
    var all := AllLines(log.(tail := Whole(e)));
    assert AllLines(log) == log.lines && all[..|all| - 1] == log.lines;
    var i :| 0 <= i < |log.lines| && log.lines[i].Garbage?;
    assert all[i] == Garbage;
  }

  lemma AppendSettles(d: Disk, e: Event, cut: Cut)
    requires Settled(d)
    ensures Settled(Perform(d, AppendEvent(e))) && Settled(Torn(d, AppendEvent(e), cut))
  {
    AppendKeepsRecords(d.log, e, cut);
  }

  /** What the log looks like once the next event is appended. */
  lemma AppendAnswers(log: Log, e: Event)
    requires ReadLog(log).Events?
    ensures ReadLog(Append(log, e)).Events? <==> !(log.tail.Ended? && !Undamaged(log))
    ensures ReadLog(Append(log, e)).Events? ==>
      Kept(Append(log, e)) == Kept(log) + if log.tail.Ended? then 1 else 0
  {
    var all, after := AllLines(log), AllLines(Append(log, e));
    if Undamaged(log) {
      CleanRead(log);
      if log.tail.Ended? {
        AppendToClean(log, e);
      } else {
        AppendToWhole(log, e);
      }
    } else if log.tail.Ended? {
      assert all == log.lines && after[..|after| - 1] == log.lines;
    } else {
      FragmentKeeps(log, e);
    }
  }

  lemma FragmentKeeps(log: Log, e: Event)
    requires ReadLog(log).Events? && !Undamaged(log) && !log.tail.Ended?
    ensures log.tail.Fragment? && ReadLog(Append(log, e)) == ReadLog(log)
  {
    assert AllLines(Append(log, e)) == AllLines(log);
  }

  /** An append and the snapshot pointing at it, cut anywhere: the pointer stays within the
      terminated records unless the append met unterminated text and the snapshot was saved. */
  lemma PairPointerIff(d: Disk, kind: EventKind, s: Snapshot, k: nat, cut: Cut)
    requires DiskOk(d) && d.state.Some? && Settled(d) && NextSequence(d.log) == Some(s.lastSequence) && k <= 2
    ensures var ws := [AppendEvent(Event(s.lastSequence, kind)), SaveState(s)];
      Settled(CrashPoint(d, ws, k, cut)) <==> k < 2 || d.log.tail.Ended?
  {
    var e := Event(s.lastSequence, kind);
    PairPoints(d, AppendEvent(e), SaveState(s), k, cut);
    AppendSettles(d, e, cut);
    if k == 2 {
      SnapshotSettlesIff(d, e, s);
    }
  }

  /** Where a crash of two writes leaves the disk. */
  lemma PairPoints(d: Disk, w: Write, v: Write, k: nat, cut: Cut)
    requires k <= 2
    ensures CrashPoint(d, [w, v], k, cut) ==
      if k == 0 then Torn(d, w, cut)
      else if k == 1 then Torn(Perform(d, w), v, cut)
      else Perform(Perform(d, w), v)
  {
    var ws := [w, v];
    PerformTwo(d, w, v);
    assert ws[..2] == ws && ws[..1] == [w] && ws[..0] == [];
    assert PerformAll(d, [w]) == Perform(d, w);
  }

  lemma SnapshotSettlesIff(d: Disk, e: Event, s: Snapshot)
    requires DiskOk(d) && Settled(d) && NextSequence(d.log) == Some(s.lastSequence) && e.sequence == s.lastSequence
    ensures Settled(Perform(Perform(d, AppendEvent(e)), SaveState(s))) <==> d.log.tail.Ended?
  {
    AppendAnswers(d.log, e);
    if d.log.tail.Ended? && Undamaged(d.log) {
      CleanRead(d.log);
    }
  }

  lemma {:induction false} CrashConcat(d: Disk, ws: seq<Write>, vs: seq<Write>, k: nat, cut: Cut)
    requires k <= |ws| + |vs|
    ensures CrashPoint(d, ws + vs, k, cut)
         == if k < |ws| then CrashPoint(d, ws, k, cut) else CrashPoint(PerformAll(d, ws), vs, k - |ws|, cut)
  {
    if k < |ws| {
      assert (ws + vs)[..k] == ws[..k];
    } else {
      assert (ws + vs)[..k] == ws + vs[..k - |ws|];
      PerformConcat(d, ws, vs[..k - |ws|]);
    }
  }

  // ------------------------------------------------------------ single steps

  ghost function Performed(ws: seq<Write>, ending: Ending): nat {
    match ending
    case Completes => |ws|
    case Crashes(k, _) => k
  }

  function CutOf(ending: Ending): Cut {
    if ending.Completes? then NoBytes else ending.cut
  }

  /** The step saved a snapshot right behind an append that met unterminated text. A verdict
      that follows makes the log unreadable, so it must not have begun. */
  ghost predicate Overshoots(s: Sys, op: Op, ending: Ending) {
    && Enabled(s, op) && !s.disk.log.tail.Ended?
    && var ws := Writes(s, op);
       var k := Performed(ws, ending);
       match op
       case ResumeRun => k == 2
       case OperatorEvent(_) => k == 2
       case Decide(_) => k == 3 && (|ws| == 3 || CutOf(ending).NoBytes?)
       case _ => false
  }

  lemma MarkPointerIff(d: Disk, kind: EventKind, k: nat, cut: Cut)
    requires DiskOk(d) && d.state.Some? && Settled(d) && k <= |MarkWrites(d, kind)|
    ensures Settled(CrashPoint(d, MarkWrites(d, kind), k, cut)) <==> k < 2 || d.log.tail.Ended?
  {
    if NextSequence(d.log).Some? {
      PairPointerIff(d, kind, d.state.value.(lastSequence := NextSequence(d.log).value), k, cut);
    }
  }

  lemma StartSettles(d: Disk, k: nat, cut: Cut)
    requires DiskOk(d) && d.state.None? && k <= 3
    ensures Settled(CrashPoint(d, StartWrites(), k, cut))
  {
    var save := SaveState(FreshState);
    var d1 := Perform(d, save);
    assert PerformAll(d, [save]) == d1;
    CrashConcat(d, [save], EmitWrites(FreshState, RunCreated, Some(Received)), k, cut);
    if k == 0 {
      assert [save][..0] == [];
    } else {
      assert WriteOk(d, save) && DiskOk(d1);
      PairPointerIff(d1, RunCreated, Advance(FreshState, 1, Some(Received)), k - 1, cut);
    }
  }

  lemma RunnerSettles(s: Sys, op: Op, k: nat, cut: Cut)
    requires SysOk(s) && Settled(s.disk) && Enabled(s, op) && ByRunner(op) && k <= |Writes(s, op)|
    ensures Settled(CrashPoint(s.disk, Writes(s, op), k, cut))
  {
    RunnerNext(s);
    if op.Emit? {
      PairPointerIff(s.disk, op.kind, Advance(s.mem.value, s.mem.value.lastSequence + 1, op.after), k, cut);
    } else {
      SingleWriteSettles(s.disk, Writes(s, op), k, cut);
    }
  }

  /** One write that is no append and moves no pointer. */
  lemma SingleWriteSettles(d: Disk, ws: seq<Write>, k: nat, cut: Cut)
    requires Settled(d) && d.state.Some? && |ws| <= 1 && k <= |ws|
    requires ws != [] ==>
      !ws[0].AppendEvent? && (ws[0].SaveState? ==> ws[0].s.lastSequence == d.state.value.lastSequence)
    ensures Settled(CrashPoint(d, ws, k, cut))
  {
    if k == 1 {
      assert ws[..1] == [ws[0]];
      assert PerformAll(d, [ws[0]]) == Perform(d, ws[0]);
    } else {
      assert ws[..0] == [];
    }
  }

  /** Bytes appended behind a damaged line make the log unreadable. */
  lemma SecondAppendIsUnreadable(d: Disk, e: Event, cut: Cut)
    requires d.log.tail.Ended? && !Undamaged(d.log) && !cut.NoBytes?
    ensures ReadLog(Append(d.log, e)).Unreadable? && ReadLog(TornAppend(d.log, e, cut)).Unreadable?
  {
    assert AllLines(d.log) == d.log.lines;
    TornWholeStaysDamaged(d.log, e);
    var after, torn := AllLines(Append(d.log, e)), AllLines(d.log.(tail := Fragment));
    assert after[..|after| - 1] == d.log.lines && torn[..|torn| - 1] == d.log.lines;
    var i :| 0 <= i < |d.log.lines| && d.log.lines[i].Garbage?;
    assert after[i] == Garbage && torn[i] == Garbage;
  }

  /** The first three writes of an accepted decision. */
  lemma RecordPointerIff(d: Disk, a: ReviewerAction, k: nat, cut: Cut)
    requires DiskOk(d) && d.state.Some? && Settled(d) && NextSequence(d.log).Some? && k <= 3
    ensures Settled(CrashPoint(d, RecordWrites(d, a), k, cut)) <==> k < 3 || d.log.tail.Ended?
  {
    var n := NextSequence(d.log).value;
    var write := WriteFile(DecisionFile);
    var d1 := Perform(d, write);
    assert PerformAll(d, [write]) == d1;
    var rest := [AppendEvent(Event(n, HumanDecisionRecorded)), SaveState(Decided(d.state.value, a, n))];
    assert RecordWrites(d, a) == [write] + rest;
    CrashConcat(d, [write], rest, k, cut);
    if k == 0 {
      assert [write][..0] == [];
    } else {
      PairPointerIff(d1, HumanDecisionRecorded, Decided(d.state.value, a, n), k - 1, cut);
    }
  }

  /** The disk after the first snapshot of an accepted decision. */
  lemma AfterRecord(d: Disk, a: ReviewerAction)
    requires DiskOk(d) && d.state.Some? && Undamaged(d.log) && Settled(d)
    ensures var after := PerformAll(d, RecordWrites(d, a));
      && after.log.tail.Ended? && after.state.Some? && ReadLog(after.log).Events?
      && (Undamaged(after.log) <==> d.log.tail.Ended?) && (Settled(after) <==> d.log.tail.Ended?)
      && CrashPoint(d, RecordWrites(d, a), 3, NoBytes) == after
  {
    var n := NextSequence(d.log).value;
    var ws := RecordWrites(d, a);
    assert ws[..3] == ws;
    RecordPointerIff(d, a, 3, NoBytes);
    CleanRead(d.log);
    var d1 := Perform(d, ws[0]);
    assert ws[1..] == [ws[1], ws[2]];
    PerformTwo(d1, ws[1], ws[2]);
    if d.log.tail.Ended? {
      AppendToClean(d.log, ws[1].e);
    } else {
      AppendToWhole(d.log, ws[1].e);
    }
  }

  /** The verdict behind a first snapshot that overshot. */
  lemma VerdictAfterOvershoot(d: Disk, a: ReviewerAction, k: nat, cut: Cut)
    requires d.log.tail.Ended? && d.state.Some? && ReadLog(d.log).Events? && !Undamaged(d.log) && !Settled(d)
    requires k <= |VerdictWrites(d, a)|
    ensures Settled(CrashPoint(d, VerdictWrites(d, a), k, cut))
       <==> VerdictWrites(d, a) != [] && !(k == 0 && cut.NoBytes?)
  {
    var ws := VerdictWrites(d, a);
    if ws == [] {
    } else {
      var e := ws[0].e;
      SecondAppendIsUnreadable(d, e, SomeBytes);
      SecondAppendIsUnreadable(d, e, AllButNewline);
      assert ws[..0] == [] && ws[..1] == [ws[0]] && ws[..2] == [ws[0], ws[1]];
      assert PerformAll(d, [ws[0]]) == Perform(d, ws[0]);
      PerformTwo(d, ws[0], ws[1]);
    }
  }

  /** Everything behind the first snapshot of an accepted decision. */
  lemma VerdictPointerIff(d: Disk, a: ReviewerAction, k: nat, cut: Cut)
    requires DiskOk(d) && d.state.Some? && Settled(d) && Undamaged(d.log) && d.state.value.workflow == At(AwaitingHuman)
    requires PerformAll(d, RecordWrites(d, a)).state.Some?
    requires k <= |VerdictWrites(PerformAll(d, RecordWrites(d, a)), a)|
    ensures var after := PerformAll(d, RecordWrites(d, a)); var verdict := VerdictWrites(after, a);
      Settled(CrashPoint(after, verdict, k, cut)) <==> d.log.tail.Ended? || (verdict != [] && !(k == 0 && cut.NoBytes?))
  {
    AfterRecord(d, a);
    var after := PerformAll(d, RecordWrites(d, a));
    if !d.log.tail.Ended? {
      VerdictAfterOvershoot(after, a, k, cut);
    } else {
      RecordOk(d, a);
      CompleteKeepsOk(d, RecordWrites(d, a));
      VerdictSettles(after, a, k, cut);
    }
  }

  lemma VerdictSettles(after: Disk, a: ReviewerAction, k: nat, cut: Cut)
    requires DiskOk(after) && after.state.Some? && Settled(after) && after.log.tail.Ended?
    requires k <= |VerdictWrites(after, a)|
    ensures Settled(CrashPoint(after, VerdictWrites(after, a), k, cut))
  {
    if a.Approve? {
      MarkPointerIff(after, HumanApproved, k, cut);
    } else if a.Reject? {
      MarkPointerIff(after, HumanRejected, k, cut);
    }
  }

  lemma AcceptedMeans(d: Disk, input: DecisionInput)
    requires Accepted(d, input)
    ensures d.state.Some? && Undamaged(d.log) && d.state.value.workflow == At(AwaitingHuman) && input.action.Some?
    ensures NextSequence(d.log).Some? && |RecordWrites(d, input.action.value)| == 3
    ensures PerformAll(d, RecordWrites(d, input.action.value)).state.Some?
    ensures DecisionWrites(d, input) == RecordWrites(d, input.action.value)
      + VerdictWrites(PerformAll(d, RecordWrites(d, input.action.value)), input.action.value)
  {
    StateStays(d, RecordWrites(d, input.action.value));
  }

  /** A decision, cut anywhere. */
  lemma DecisionPointerIff(d: Disk, input: DecisionInput, k: nat, cut: Cut)
    requires DiskOk(d) && Settled(d) && Accepted(d, input) && k <= |DecisionWrites(d, input)|
    ensures Settled(CrashPoint(d, DecisionWrites(d, input), k, cut)) <==>
      !(k == 3 && (|DecisionWrites(d, input)| == 3 || cut.NoBytes?)) || d.log.tail.Ended?
  {
    AcceptedMeans(d, input);
    var a := input.action.value;
    var record := RecordWrites(d, a);
    var verdict := VerdictWrites(PerformAll(d, record), a);
    CrashConcat(d, record, verdict, k, cut);
    if k < 3 {
      RecordPointerIff(d, a, k, cut);
    } else {
      VerdictPointerIff(d, a, k - 3, cut);
    }
  }

  lemma StepDisk(s: Sys, op: Op, ending: Ending, s': Sys)
    requires StepTo(s, op, ending, s')
    ensures var ws := Writes(s, op); var k := Performed(ws, ending);
      k <= |ws| && s'.disk == CrashPoint(s.disk, ws, k, CutOf(ending))
  {
    var ws := Writes(s, op);
    assert ws[..|ws|] == ws;
  }

  /** One step of any kind, completed or crashed anywhere: the pointer stays within the
      terminated records if and only if the step does not overshoot. */
  lemma StepKeepsPointerIff(s: Sys, op: Op, ending: Ending, s': Sys)
    requires SysOk(s) && Settled(s.disk) && StepTo(s, op, ending, s')
    ensures Settled(s'.disk) <==> !Overshoots(s, op, ending)
  {
    var ws := Writes(s, op);
    var k, cut := Performed(ws, ending), CutOf(ending);
    StepDisk(s, op, ending, s');
    match op
    case Start => StartSettles(s.disk, k, cut);
    case ResumeRun => ResumePointerIff(s.disk, k, cut);
    case OperatorEvent(kind) => OperatorPointerIff(s.disk, kind, k, cut);
    case Decide(input) =>
      if Accepted(s.disk, input) {
        DecisionPointerIff(s.disk, input, k, cut);
      }
    case _ => RunnerSettles(s, op, k, cut);
  }

  lemma ResumePointerIff(d: Disk, k: nat, cut: Cut)
    requires DiskOk(d) && Settled(d) && k <= |ResumeWrites(d)|
    ensures Settled(CrashPoint(d, ResumeWrites(d), k, cut)) <==> k < 2 || d.log.tail.Ended?
  {
    if ResumeWrites(d) != [] {
      MarkPointerIff(d, RunResumed, k, cut);
    }
  }

  lemma OperatorPointerIff(d: Disk, kind: OperatorKind, k: nat, cut: Cut)
    requires DiskOk(d) && Settled(d) && k <= |OperatorWrites(d, kind)|
    ensures Settled(CrashPoint(d, OperatorWrites(d, kind), k, cut)) <==> k < 2 || d.log.tail.Ended?
  {
    if d.state.Some? {
      MarkPointerIff(d, EventOf(kind), k, cut);
    }
  }

  /** After an overshoot the log ends in a newline, so the pointer is past every event. */
  lemma OvershootIsVisible(s: Sys, op: Op, ending: Ending, s': Sys)
    requires SysOk(s) && Settled(s.disk) && StepTo(s, op, ending, s') && Overshoots(s, op, ending)
    ensures !PointerWithin(s'.disk)
  {
    StepKeepsPointerIff(s, op, ending, s');
    StepDisk(s, op, ending, s');
    if op.Decide? {
      AcceptedMeans(s.disk, op.input);
      var record := RecordWrites(s.disk, op.input.action.value);
      CrashConcat(s.disk, record, VerdictWrites(PerformAll(s.disk, record), op.input.action.value), 3, CutOf(ending));
      AfterRecord(s.disk, op.input.action.value);
    } else {
      var ws := Writes(s, op);
      assert ws[..2] == [ws[0], ws[1]];
      PerformTwo(s.disk, ws[0], ws[1]);
    }
  }

  /** A completed operator event keeps the pointer within the log if and only if the log cannot
      be read, in which case it writes nothing, or ends in a newline. */
  lemma OperatorKeepsPointerIff(d: Disk, k: OperatorKind)
    requires DiskOk(d) && d.state.Some? && PointerWithin(d)
    ensures PointerWithin(PerformAll(d, OperatorWrites(d, k))) <==> !ReadLog(d.log).Events? || d.log.tail.Ended?
  {
    if ReadLog(d.log).Events? {
      var n := NextSequence(d.log).value;
      var e := Event(n, EventOf(k));
      PerformTwo(d, AppendEvent(e), SaveState(d.state.value.(lastSequence := n)));
      AppendAnswers(d.log, e);
    }
  }

  // ------------------------------------------------------------------- runs

  /** A run with its operations and how each of them ended. */
  ghost predicate IsExecution(trace: seq<Sys>, ops: seq<Op>, endings: seq<Ending>) {
    && |trace| == |ops| + 1 && |ops| == |endings|
    && forall i, j :: 0 <= i < j == i + 1 < |trace| ==> StepTo(trace[i], ops[i], endings[i], trace[j])
  }

  ghost predicate NeverOvershoots(trace: seq<Sys>, ops: seq<Op>, endings: seq<Ending>, n: nat)
    requires |trace| == |ops| + 1 == |endings| + 1 && n <= |ops|
  {
    n == 0 || (NeverOvershoots(trace, ops, endings, n - 1) && !Overshoots(trace[n - 1], ops[n - 1], endings[n - 1]))
  }

  ghost predicate WithinUpTo(trace: seq<Sys>, n: nat)
    requires n < |trace|
  {
    PointerWithin(trace[n].disk) && (n == 0 || WithinUpTo(trace, n - 1))
  }

  lemma {:induction false} WithinEach(trace: seq<Sys>, n: nat)
    requires n < |trace|
    ensures WithinUpTo(trace, n) <==> forall i :: 0 <= i <= n ==> PointerWithin(trace[i].disk)
  {
    if n > 0 {
      WithinEach(trace, n - 1);
    }
  }

  lemma {:induction false} WithinUpToIff(trace: seq<Sys>, ops: seq<Op>, endings: seq<Ending>, n: nat)
    requires IsExecution(trace, ops, endings) && n <= |ops| && SysOk(trace[0]) && Settled(trace[0].disk)
    ensures WithinUpTo(trace, n) <==> NeverOvershoots(trace, ops, endings, n)
    ensures NeverOvershoots(trace, ops, endings, n) ==> SysOk(trace[n]) && Settled(trace[n].disk)
  {
    if n > 0 {
      var m := n - 1;
      WithinUpToIff(trace, ops, endings, m);
      if NeverOvershoots(trace, ops, endings, m) {
        StepFromSettled(trace[m], ops[m], endings[m], trace[n]);
      }
    }
  }

  lemma StepFromSettled(s: Sys, op: Op, ending: Ending, s': Sys)
    requires SysOk(s) && Settled(s.disk) && StepTo(s, op, ending, s')
    ensures SysOk(s') && (Overshoots(s, op, ending) <==> !PointerWithin(s'.disk))
    ensures !Overshoots(s, op, ending) ==> Settled(s'.disk)
  {
    assert Step(s, s');
    StepKeepsOk(s, s');
    StepKeepsPointerIff(s, op, ending, s');
    if Overshoots(s, op, ending) {
      OvershootIsVisible(s, op, ending, s');
    }
  }

  /** Over every run: the saved pointer is at most the number of readable events in all
      its states if and only if no step overshoots. */
  lemma PointerWithinThroughoutIff(trace: seq<Sys>, ops: seq<Op>, endings: seq<Ending>)
    requires IsExecution(trace, ops, endings) && SysOk(trace[0]) && Settled(trace[0].disk)
    ensures (forall i :: 0 <= i < |trace| ==> PointerWithin(trace[i].disk))
       <==> NeverOvershoots(trace, ops, endings, |ops|)
  {
    WithinUpToIff(trace, ops, endings, |ops|);
    WithinEach(trace, |ops|);
  }

  // ------------------------------------------------------ a torn first record

  /** The directory a crash inside the very first append can leave behind. */
  const TornStart := Disk(Some(FreshState), Log([], Fragment), {}, None)

  lemma TornStartIsReached()
    ensures StepTo(Sys(Empty, None), Start, Crashes(1, SomeBytes), Sys(TornStart, None))
    ensures SysOk(Sys(TornStart, None)) && Settled(TornStart)
  {
    var ws := StartWrites();
    var one := [SaveState(FreshState)];
    assert ws[..1] == one;
    assert PerformAll(Empty, one) == Perform(Empty, one[0]);
    assert CrashPoint(Empty, ws, 1, SomeBytes) == TornStart;
    var s0, s1 := Sys(Empty, None), Sys(TornStart, None);
    EmptyDiskOk();
    assert StepTo(s0, Start, Crashes(1, SomeBytes), s1);
    assert Step(s0, s1);
    StepKeepsOk(s0, s1);
    StepKeepsPointerIff(s0, Start, Crashes(1, SomeBytes), s1);
  }

  /** No unterminated whole record is needed: an operator event on a run whose first
      append was torn saves a pointer to an event that cannot be read. */
  lemma OperatorEventAfterTornStart(k: OperatorKind) returns (trace: seq<Sys>)
    ensures IsRun(trace) && trace[0] == Sys(Empty, None) && !PointerWithin(trace[|trace| - 1].disk)
    ensures forall i :: 0 <= i < |trace| ==> !trace[i].disk.log.tail.Whole?
  {
    TornStartIsReached();
    var s2 := OperatorOvershoots(TornStart, k);
    trace := [Sys(Empty, None), Sys(TornStart, None), s2];
    assert Step(trace[0], trace[1]) && Step(trace[1], trace[2]);
  }

  lemma OperatorOvershoots(d: Disk, k: OperatorKind) returns (after: Sys)
    requires DiskOk(d) && Settled(d) && d.state.Some? && ReadLog(d.log).Events? && d.log.tail.Fragment?
    ensures StepTo(Sys(d, None), OperatorEvent(k), Completes, after)
    ensures !PointerWithin(after.disk) && after.disk.log.tail.Ended?
  {
    var s, ws := Sys(d, None), OperatorWrites(d, k);
    after := Sys(PerformAll(d, ws), None);
    OvershootIsVisible(s, OperatorEvent(k), Completes, after);
    PerformTwo(d, ws[0], ws[1]);
  }
}
