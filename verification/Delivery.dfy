/** Interleaved deliveries over the completion ledger. Each ledger transaction is
    one step; the clock only moves forward; a worker may crash between any two
    steps. A transaction may use a clock reading taken earlier. */
module DeliveryProtocol {
  import opened Options
  import opened CompletionLedger

  /** `lease` is the deadline the claim wrote. */
  datatype Phase =
    | Fresh
    | Checked
    | Running(lease: real)
    | Returned(lease: real, result: Payload)
    | Raised(lease: real)
    | Done(executed: bool, result: Payload)
    | ClaimRefused
    | CompleteFailed
    | Failed
    | Crashed

  datatype Delivery = Delivery(key: Key, worker: Worker, leaseSeconds: real, phase: Phase)

  /** `returned` records every effect that returned normally, by delivery. */
  datatype World = World(clock: real, rows: Table, deliveries: map<nat, Delivery>, returned: map<nat, Payload>)

  const Initial := World(0.0, map[], map[], map[])

  datatype Action =
    | Tick(to: real)
    | Begin(d: nat, key: Key, worker: Worker, leaseSeconds: real)
    | Look(d: nat)
    | Claim(d: nat, now: real)
    | EffectReturns(d: nat, result: Payload)
    | EffectRaises(d: nat)
    | Complete(d: nat, now: real)
    | Release(d: nat, now: real)
    | Crash(d: nat)

  predicate Active(p: Phase) {
    p.Running? || p.Returned? || p.Raised?
  }

  predicate InProgress(p: Phase) {
    p.Fresh? || p.Checked? || Active(p)
  }

  predicate Enabled(w: World, a: Action) {
    match a
    case Tick(to) => to >= w.clock
    case Begin(d, _, _, _) => d !in w.deliveries
    case Look(d) => d in w.deliveries && w.deliveries[d].phase.Fresh?
    case Claim(d, now) => d in w.deliveries && w.deliveries[d].phase.Checked? && now <= w.clock
    case EffectReturns(d, _) => d in w.deliveries && w.deliveries[d].phase.Running?
    case EffectRaises(d) => d in w.deliveries && w.deliveries[d].phase.Running?
    case Complete(d, now) => d in w.deliveries && w.deliveries[d].phase.Returned? && now <= w.clock
    case Release(d, now) => d in w.deliveries && w.deliveries[d].phase.Raised? && now <= w.clock
    case Crash(d) => d in w.deliveries && InProgress(w.deliveries[d].phase)
  }

  /** The ledger grants delivery `d` its key. */
  predicate Grants(w: World, d: nat, now: real)
    requires d in w.deliveries
  {
    var me := w.deliveries[d];
    ClaimAnswerFor(w.rows, me.key, me.worker, now + me.leaseSeconds, now).Granted?
  }

  function Move(w: World, d: nat, p: Phase): World
    requires d in w.deliveries
  {
    w.(deliveries := w.deliveries[d := w.deliveries[d].(phase := p)])
  }

  function ReplayOf(record: Row, otherwise: Phase): Phase {
    if record.result.Some? then Done(false, record.result.value) else otherwise
  }

  function Next(w: World, a: Action): World
    requires Enabled(w, a)
  {
    match a
    case Tick(to) => w.(clock := to)
    case Begin(d, key, worker, leaseSeconds) =>
      w.(deliveries := w.deliveries[d := Delivery(key, worker, leaseSeconds, Fresh)])
    case Look(d) =>
      var k := w.deliveries[d].key;
      Move(w, d, if IsCompleted(w.rows, k) then ReplayOf(w.rows[k], Crashed) else Checked)
    case Claim(d, now) =>
      var me := w.deliveries[d];
      var lease := now + me.leaseSeconds;
      var phase := match ClaimAnswerFor(w.rows, me.key, me.worker, lease, now)
        case Granted(_) => Running(lease)
        case Finished(record) => ReplayOf(record, Crashed)
        case Refused => ClaimRefused;
      Move(w, d, phase).(rows := AfterClaim(w.rows, me.key, me.worker, lease, now))
    case EffectReturns(d, result) =>
      Move(w, d, Returned(w.deliveries[d].phase.lease, result)).(returned := w.returned[d := result])
    case EffectRaises(d) => Move(w, d, Raised(w.deliveries[d].phase.lease))
    case Complete(d, now) =>
      var me := w.deliveries[d];
      var result := me.phase.result;
      var answer := CompleteAnswerFor(w.rows, me.key, result, me.worker, now);
      // the outcome carries the effect's own result, whatever the ledger answered
      Move(w, d, if answer.Accepted? || answer.AlreadyCompleted? then Done(true, result) else CompleteFailed)
        .(rows := AfterComplete(w.rows, me.key, result, me.worker, now))
    case Release(d, now) =>
      var me := w.deliveries[d];
      Move(w, d, Failed).(rows := AfterRelease(w.rows, me.key, me.worker, now))
    case Crash(d) => Move(w, d, Crashed)
  }

  // ------------------------------------------------------------------- runs

  ghost predicate Legal(acts: seq<Action>)
    decreases |acts|, 0
  {
    acts == [] || (Legal(acts[..|acts| - 1]) && Enabled(After(acts[..|acts| - 1]), acts[|acts| - 1]))
  }

  ghost function After(acts: seq<Action>): World
    requires Legal(acts)
    decreases |acts|, 1
  {
    if acts == [] then Initial else Next(After(acts[..|acts| - 1]), acts[|acts| - 1])
  }

  lemma {:induction false} LegalPrefix(acts: seq<Action>, i: nat)
    requires Legal(acts) && i <= |acts|
    ensures Legal(acts[..i])
  {
    if i < |acts| {
      LegalPrefix(acts[..|acts| - 1], i);
      assert acts[..|acts| - 1][..i] == acts[..i];
    } else {
      assert acts[..i] == acts;
    }
  }

  // ------------------------------------------------ without any assumptions

  /** Stored results are present, and every replay equals the stored result. */
  ghost predicate ReplaysOk(w: World) {
    && (forall k :: k in w.rows ==> RowOk(w.rows[k]))
    && (forall d :: d in w.deliveries ==> ReplayOk(w, w.deliveries[d]))
  }

  ghost predicate ReplayOk(w: World, me: Delivery) {
    me.phase.Done? && !me.phase.executed ==>
      IsCompleted(w.rows, me.key) && w.rows[me.key].result == Some(me.phase.result)
  }

  /** No transaction touches a completed row. */
  lemma StepKeepsCompleted(w: World, a: Action, k: Key)
    requires Enabled(w, a) && IsCompleted(w.rows, k)
    ensures k in Next(w, a).rows && Next(w, a).rows[k] == w.rows[k]
  {
  }

  lemma StepKeepsReplays(w: World, a: Action)
    requires Enabled(w, a) && ReplaysOk(w)
    ensures ReplaysOk(Next(w, a))
  {
    var w' := Next(w, a);
    forall d | d in w'.deliveries ensures ReplayOk(w', w'.deliveries[d]) {
      var me := w'.deliveries[d];
      if d in w.deliveries && w.deliveries[d] == me && IsCompleted(w.rows, me.key) {
        StepKeepsCompleted(w, a, me.key);
      }
    }
  }

  /** Over every run: each replay delivers the result stored in the ledger. */
  lemma {:induction false} ReplaysMatchLedger(acts: seq<Action>)
    requires Legal(acts)
    ensures ReplaysOk(After(acts))
  {
    if acts != [] {
      ReplaysMatchLedger(acts[..|acts| - 1]);
      StepKeepsReplays(After(acts[..|acts| - 1]), acts[|acts| - 1]);
    }
  }

  /** Over every run: once a key is completed its row never changes again. */
  lemma {:induction false} CompletedIsWriteOnce(acts: seq<Action>, i: nat, k: Key)
    requires Legal(acts) && i <= |acts| && Legal(acts[..i]) && IsCompleted(After(acts[..i]).rows, k)
    ensures k in After(acts).rows && After(acts).rows[k] == After(acts[..i]).rows[k]
  {
    if i == |acts| {
      assert acts[..i] == acts;
    } else {
      assert acts[..|acts| - 1][..i] == acts[..i];
      CompletedIsWriteOnce(acts[..|acts| - 1], i, k);
      StepKeepsCompleted(After(acts[..|acts| - 1]), acts[|acts| - 1], k);
    }
  }

  // --------------------------------------------------- under the assumptions

  /** Every claimed delivery still holds an unexpired lease: effects and the
      ledger call that follows them end before the lease does. */
  ghost predicate Timely(w: World) {
    forall d :: d in w.deliveries && Active(w.deliveries[d].phase) ==> w.clock < w.deliveries[d].phase.lease
  }

  /** A worker does not claim a key it is already executing. */
  ghost predicate NoSelfOverlap(w: World, a: Action) {
    a.Claim? && a.d in w.deliveries ==>
      forall e :: e in w.deliveries && e != a.d && Active(w.deliveries[e].phase) ==>
        w.deliveries[e].key != w.deliveries[a.d].key || w.deliveries[e].worker != w.deliveries[a.d].worker
  }

  /** No crash falls between the return of an effect and its `complete`. */
  ghost predicate NoLostReturn(w: World, a: Action) {
    a.Crash? && a.d in w.deliveries ==> !w.deliveries[a.d].phase.Returned?
  }

  /** The three assumptions under which a delivery is exactly-once. */
  datatype Rule = TimelyEffects | OneAtATime | NoLostReturns

  /** The step from `w` to `w'` respects the rule. */
  ghost predicate Respects(w: World, a: Action, w': World, rule: Rule) {
    match rule
    case TimelyEffects => Timely(w')
    case OneAtATime => NoSelfOverlap(w, a)
    case NoLostReturns => NoLostReturn(w, a)
  }

  /** Every step of the run respects the rule. */
  ghost predicate Keeps(acts: seq<Action>, rule: Rule)
    requires Legal(acts)
    decreases |acts|
  {
    acts == [] ||
    (var before, a := acts[..|acts| - 1], acts[|acts| - 1];
     Keeps(before, rule) && Respects(After(before), a, After(acts), rule))
  }

  ghost predicate Disciplined(acts: seq<Action>)
    requires Legal(acts)
  {
    forall rule :: Keeps(acts, rule)
  }

  lemma DisciplinedStep(acts: seq<Action>)
    requires Legal(acts) && Disciplined(acts) && acts != []
    ensures var before, a := acts[..|acts| - 1], acts[|acts| - 1];
      && Disciplined(before) && Timely(After(acts))
      && NoSelfOverlap(After(before), a) && NoLostReturn(After(before), a)
  {
    assert Keeps(acts, TimelyEffects) && Keeps(acts, OneAtATime) && Keeps(acts, NoLostReturns);
    var before := acts[..|acts| - 1];
    forall rule ensures Keeps(before, rule) {
      assert Keeps(acts, rule);
    }
  }

  /** An active delivery owns the row of its key, with the lease it wrote. */
  ghost predicate Holds(w: World, me: Delivery)
    requires Active(me.phase)
  {
    && me.key in w.rows && w.rows[me.key].status == Started
    && w.rows[me.key].owner == me.worker && w.rows[me.key].leaseUntil == me.phase.lease
  }

  ghost predicate HoldersOk(w: World) {
    forall d :: d in w.deliveries && Active(w.deliveries[d].phase) ==> Holds(w, w.deliveries[d])
  }

  /** Executions of one key never overlap. */
  ghost predicate NoOverlap(w: World) {
    forall d, e ::
      (d in w.deliveries && e in w.deliveries && d != e
       && Active(w.deliveries[d].phase) && Active(w.deliveries[e].phase))
      ==> w.deliveries[d].key != w.deliveries[e].key
  }

  /** A returned effect is stored, or about to be stored by the delivery that ran it. */
  ghost predicate ReturnSettled(w: World, d: nat)
    requires d in w.deliveries && d in w.returned
  {
    var me := w.deliveries[d];
    if me.phase.Returned? then me.phase.result == w.returned[d]
    else me.phase == Done(true, w.returned[d])
         && IsCompleted(w.rows, me.key) && w.rows[me.key].result == Some(w.returned[d])
  }

  predicate CarriesOwnResult(p: Phase) {
    p.Returned? || (p.Done? && p.executed)
  }

  ghost predicate ReturnsOk(w: World) {
    && (forall d :: d in w.returned ==> d in w.deliveries && ReturnSettled(w, d))
    && (forall d :: d in w.deliveries ==> w.deliveries[d].phase != CompleteFailed)
    && (forall d :: d in w.deliveries && CarriesOwnResult(w.deliveries[d].phase) ==> d in w.returned)
  }

  /** At most one effect per key ever returned normally. */
  ghost predicate OneReturn(w: World) {
    forall d, e :: d in w.returned && e in w.returned && d in w.deliveries && e in w.deliveries && d != e ==>
      w.deliveries[d].key != w.deliveries[e].key
  }

  ghost predicate Inv(w: World) {
    ReplaysOk(w) && HoldersOk(w) && NoOverlap(w) && ReturnsOk(w) && OneReturn(w)
  }

  /** The exact guard of a claim on a key that another delivery is executing: it is granted
      once that delivery's lease has run out, or to the same worker at any time. */
  lemma HolderExcludesClaims(w: World, d: nat, e: nat, now: real)
    requires HoldersOk(w) && d in w.deliveries && e in w.deliveries
    requires Active(w.deliveries[e].phase) && w.deliveries[e].key == w.deliveries[d].key
    ensures var me, holder := w.deliveries[d], w.deliveries[e];
      var answer := ClaimAnswerFor(w.rows, me.key, me.worker, now + me.leaseSeconds, now);
      && (answer.Granted? <==> holder.phase.lease <= now || holder.worker == me.worker)
      && (answer.Refused? <==> !answer.Granted?)
  {
    assert Holds(w, w.deliveries[e]);
  }

  /** A granted claim finds no active delivery and no returned effect on its key. */
  lemma GrantFindsKeyIdle(w: World, d: nat, now: real)
    requires Inv(w) && Timely(w) && Enabled(w, Claim(d, now)) && NoSelfOverlap(w, Claim(d, now))
    requires Grants(w, d, now)
    ensures forall e :: e in w.deliveries && Active(w.deliveries[e].phase) ==>
      w.deliveries[e].key != w.deliveries[d].key
    ensures forall e :: e in w.returned && e in w.deliveries ==> w.deliveries[e].key != w.deliveries[d].key
  {
    forall e | e in w.deliveries && Active(w.deliveries[e].phase) ensures w.deliveries[e].key != w.deliveries[d].key {
      if w.deliveries[e].key == w.deliveries[d].key {
        HolderExcludesClaims(w, d, e, now);
      }
    }
    forall e | e in w.returned && e in w.deliveries ensures w.deliveries[e].key != w.deliveries[d].key {
      assert ReturnSettled(w, e);
    }
  }

  lemma ClaimKeepsInv(w: World, d: nat, now: real)
    requires Inv(w) && Timely(w) && Enabled(w, Claim(d, now)) && NoSelfOverlap(w, Claim(d, now))
    ensures Inv(Next(w, Claim(d, now)))
  {
    if Grants(w, d, now) {
      GrantKeepsInv(w, d, now);
    } else {
      RefusalKeepsInv(w, d, now);
    }
  }

  lemma GrantKeepsInv(w: World, d: nat, now: real)
    requires Inv(w) && Timely(w) && Enabled(w, Claim(d, now)) && NoSelfOverlap(w, Claim(d, now))
    requires Grants(w, d, now)
    ensures Inv(Next(w, Claim(d, now)))
  {
    StepKeepsReplays(w, Claim(d, now));
    GrantFindsKeyIdle(w, d, now);
    GrantKeepsHolders(w, d, now);
    GrantKeepsReturns(w, d, now);
  }

  lemma GrantKeepsHolders(w: World, d: nat, now: real)
    requires HoldersOk(w) && NoOverlap(w) && Enabled(w, Claim(d, now))
    requires Grants(w, d, now)
    requires forall e :: e in w.deliveries && Active(w.deliveries[e].phase) ==>
      w.deliveries[e].key != w.deliveries[d].key
    ensures HoldersOk(Next(w, Claim(d, now))) && NoOverlap(Next(w, Claim(d, now)))
  {
  }

  lemma GrantKeepsReturns(w: World, d: nat, now: real)
    requires ReturnsOk(w) && OneReturn(w) && Enabled(w, Claim(d, now))
    requires Grants(w, d, now)
    ensures ReturnsOk(Next(w, Claim(d, now))) && OneReturn(Next(w, Claim(d, now)))
  {
    var w' := Next(w, Claim(d, now));
    forall e | e in w'.returned ensures e in w'.deliveries && ReturnSettled(w', e) {
      assert ReturnSettled(w, e);
    }
  }

  lemma RefusalKeepsInv(w: World, d: nat, now: real)
    requires Inv(w) && Enabled(w, Claim(d, now))
    requires !Grants(w, d, now)
    ensures Inv(Next(w, Claim(d, now)))
  {
    StepKeepsReplays(w, Claim(d, now));
    var w' := Next(w, Claim(d, now));
    assert w'.rows == w.rows;
    forall e | e in w'.returned ensures e in w'.deliveries && ReturnSettled(w', e) {
      assert ReturnSettled(w, e);
    }
  }

  lemma CompleteKeepsInv(w: World, d: nat, now: real)
    requires Inv(w) && Enabled(w, Complete(d, now))
    ensures Inv(Next(w, Complete(d, now)))
  {
    StepKeepsReplays(w, Complete(d, now));
    LedgerCallKeepsHolders(w, d, Complete(d, now));
    CompleteKeepsReturns(w, d, now);
  }

  /** A delivery that completes or releases its key makes room; the others hold other keys. */
  lemma LedgerCallKeepsHolders(w: World, d: nat, a: Action)
    requires HoldersOk(w) && NoOverlap(w) && Enabled(w, a) && d in w.deliveries
    requires (a.Complete? || a.Release?) && a.d == d
    ensures HoldersOk(Next(w, a)) && NoOverlap(Next(w, a))
  {
    var w' := Next(w, a);
    forall e | e in w'.deliveries && Active(w'.deliveries[e].phase) ensures Holds(w', w'.deliveries[e]) {
      assert e != d && Holds(w, w.deliveries[e]);
      assert w.deliveries[e].key != w.deliveries[d].key;
    }
  }

  lemma CompleteKeepsReturns(w: World, d: nat, now: real)
    requires HoldersOk(w) && ReturnsOk(w) && OneReturn(w) && Enabled(w, Complete(d, now))
    ensures ReturnsOk(Next(w, Complete(d, now))) && OneReturn(Next(w, Complete(d, now)))
  {
    assert Holds(w, w.deliveries[d]) && ReturnSettled(w, d);
    var w' := Next(w, Complete(d, now));
    forall e | e in w'.returned ensures e in w'.deliveries && ReturnSettled(w', e) {
      assert ReturnSettled(w, e);
    }
  }

  lemma ReleaseKeepsInv(w: World, d: nat, now: real)
    requires Inv(w) && Enabled(w, Release(d, now))
    ensures Inv(Next(w, Release(d, now)))
  {
    StepKeepsReplays(w, Release(d, now));
    LedgerCallKeepsHolders(w, d, Release(d, now));
    ReleaseKeepsReturns(w, d, now);
  }

  lemma ReleaseKeepsReturns(w: World, d: nat, now: real)
    requires HoldersOk(w) && ReturnsOk(w) && OneReturn(w) && Enabled(w, Release(d, now))
    ensures ReturnsOk(Next(w, Release(d, now))) && OneReturn(Next(w, Release(d, now)))
  {
    assert Holds(w, w.deliveries[d]);
    var w' := Next(w, Release(d, now));
    forall e | e in w'.returned ensures e in w'.deliveries && ReturnSettled(w', e) {
      assert ReturnSettled(w, e);
    }
  }

  lemma ReturnKeepsInv(w: World, d: nat, result: Payload)
    requires Inv(w) && Enabled(w, EffectReturns(d, result))
    ensures Inv(Next(w, EffectReturns(d, result)))
  {
    StepKeepsReplays(w, EffectReturns(d, result));
    assert Holds(w, w.deliveries[d]);
    var w' := Next(w, EffectReturns(d, result));
    forall e | e in w'.returned ensures e in w'.deliveries && ReturnSettled(w', e) {
      if e != d {
        assert ReturnSettled(w, e);
      }
    }
    forall e | e in w.returned && e != d ensures w.deliveries[e].key != w.deliveries[d].key {
      assert ReturnSettled(w, e);
    }
  }

  lemma OtherStepKeepsInv(w: World, a: Action)
    requires Inv(w) && Enabled(w, a) && NoLostReturn(w, a)
    requires a.Tick? || a.Begin? || a.Look? || a.EffectRaises? || a.Crash?
    ensures Inv(Next(w, a))
  {
    if a.EffectRaises? || a.Crash? {
      SetbackKeepsInv(w, a);
    } else {
      StepKeepsReplays(w, a);
      QuietStepKeepsHolders(w, a);
      QuietStepKeepsReturns(w, a);
    }
  }

  lemma QuietStepKeepsHolders(w: World, a: Action)
    requires HoldersOk(w) && NoOverlap(w) && Enabled(w, a) && (a.Tick? || a.Begin? || a.Look?)
    ensures HoldersOk(Next(w, a)) && NoOverlap(Next(w, a))
  {
  }

  lemma QuietStepKeepsReturns(w: World, a: Action)
    requires ReturnsOk(w) && OneReturn(w) && Enabled(w, a) && (a.Tick? || a.Begin? || a.Look?)
    ensures ReturnsOk(Next(w, a)) && OneReturn(Next(w, a))
  {
    var w' := Next(w, a);
    forall e | e in w'.returned ensures e in w'.deliveries && ReturnSettled(w', e) {
      assert ReturnSettled(w, e);
    }
  }

  /** A raised effect or a crash takes a delivery's place in the protocol away, nothing else. */
  lemma SetbackKeepsInv(w: World, a: Action)
    requires Inv(w) && Enabled(w, a) && NoLostReturn(w, a)
    requires a.EffectRaises? || a.Crash?
    ensures Inv(Next(w, a))
  {
    StepKeepsReplays(w, a);
    SetbackKeepsHolders(w, a);
    SetbackKeepsReturns(w, a);
  }

  lemma SetbackKeepsHolders(w: World, a: Action)
    requires HoldersOk(w) && NoOverlap(w) && Enabled(w, a) && (a.EffectRaises? || a.Crash?)
    ensures HoldersOk(Next(w, a)) && NoOverlap(Next(w, a))
  {
    var w' := Next(w, a);
    forall d | d in w'.deliveries && Active(w'.deliveries[d].phase) ensures Holds(w', w'.deliveries[d]) {
      assert Holds(w, w.deliveries[d]);
    }
  }

  lemma SetbackKeepsReturns(w: World, a: Action)
    requires ReturnsOk(w) && OneReturn(w) && Enabled(w, a) && NoLostReturn(w, a) && (a.EffectRaises? || a.Crash?)
    ensures ReturnsOk(Next(w, a)) && OneReturn(Next(w, a))
  {
    var w' := Next(w, a);
    forall e | e in w'.returned ensures e in w'.deliveries && ReturnSettled(w', e) {
      assert ReturnSettled(w, e);
    }
  }

  /** Over every disciplined run: executions of a key never overlap, at most one
      returns normally, `complete` never conflicts, and every outcome equals the ledger. */
  lemma {:induction false} DisciplinedRunIsExactlyOnce(acts: seq<Action>)
    requires Legal(acts) && Disciplined(acts)
    ensures Inv(After(acts)) && Timely(After(acts))
  {
    if acts != [] {
      var before, a := acts[..|acts| - 1], acts[|acts| - 1];
      DisciplinedStep(acts);
      DisciplinedRunIsExactlyOnce(before);
      var w := After(before);
      match a
      case Claim(d, now) => ClaimKeepsInv(w, d, now);
      case Complete(d, now) => CompleteKeepsInv(w, d, now);
      case Release(d, now) => ReleaseKeepsInv(w, d, now);
      case EffectReturns(d, result) => ReturnKeepsInv(w, d, result);
      case _ => OtherStepKeepsInv(w, a);
    }
  }

  /** Every finished delivery of a disciplined run agrees with the ledger. */
  lemma OutcomesAgree(acts: seq<Action>, d: nat)
    requires Legal(acts) && Disciplined(acts)
    requires d in After(acts).deliveries && After(acts).deliveries[d].phase.Done?
    ensures var w := After(acts); var me := w.deliveries[d];
      IsCompleted(w.rows, me.key) && w.rows[me.key].result == Some(me.phase.result)
  {
    DisciplinedRunIsExactlyOnce(acts);
    var w := After(acts);
    var me := w.deliveries[d];
    assert ReplayOk(w, me);
    if me.phase.executed {
      assert d in w.returned && ReturnSettled(w, d);
    }
  }

  // --------------------------------------------- why each assumption is there

  /** `acts` leads to `w` and breaks no rule but `exception`. */
  ghost predicate Reaches(acts: seq<Action>, w: World, exception: Rule) {
    Legal(acts) && After(acts) == w && forall rule :: rule != exception ==> Keeps(acts, rule)
  }

  lemma Start(exception: Rule)
    ensures Reaches([], Initial, exception)
  {
  }

  lemma Step(acts: seq<Action>, w: World, a: Action, exception: Rule) returns (w': World)
    requires Reaches(acts, w, exception) && Enabled(w, a)
    requires forall rule :: rule != exception ==> Respects(w, a, Next(w, a), rule)
    ensures Reaches(acts + [a], w', exception) && w' == Next(w, a)
  {
    var more := acts + [a];
    assert more[..|more| - 1] == acts;
    assert Legal(more) && After(more) == Next(w, a);
    w' := Next(w, a);
  }

  lemma TimelyNow(acts: seq<Action>, w: World, exception: Rule)
    requires Reaches(acts, w, exception) && exception != TimelyEffects
    ensures Timely(w)
  {
    assert Keeps(acts, TimelyEffects);
  }

  /** A delivery looks and is granted the key. */
  lemma GrantTo(acts: seq<Action>, w: World, d: nat, k: Key, worker: Worker, lease: real, exception: Rule)
    returns (more: seq<Action>, w': World)
    requires Reaches(acts, w, exception) && d !in w.deliveries && !IsCompleted(w.rows, k) && lease > 0.0
    requires ClaimAnswerFor(w.rows, k, worker, w.clock + lease, w.clock).Granted?
    requires exception == OneAtATime || forall e :: e in w.deliveries && Active(w.deliveries[e].phase) ==>
      w.deliveries[e].key != k || w.deliveries[e].worker != worker
    ensures Reaches(more, w', exception)
    ensures w' == w.(rows := AfterClaim(w.rows, k, worker, w.clock + lease, w.clock),
                     deliveries := w.deliveries[d := Delivery(k, worker, lease, Running(w.clock + lease))])
  {
    if exception != TimelyEffects {
      TimelyNow(acts, w, exception);
    }
    var looked, w1 := LookFor(acts, w, d, k, worker, lease, exception);
    w' := Step(looked, w1, Claim(d, w.clock), exception);
    more := looked + [Claim(d, w.clock)];
  }

  lemma LookFor(acts: seq<Action>, w: World, d: nat, k: Key, worker: Worker, lease: real, exception: Rule)
    returns (more: seq<Action>, w': World)
    requires Reaches(acts, w, exception) && d !in w.deliveries && !IsCompleted(w.rows, k)
    requires exception != TimelyEffects ==> Timely(w)
    ensures Reaches(more, w', exception)
    ensures w' == w.(deliveries := w.deliveries[d := Delivery(k, worker, lease, Checked)])
  {
    var w1 := Step(acts, w, Begin(d, k, worker, lease), exception);
    more := acts + [Begin(d, k, worker, lease)];
    w' := Step(more, w1, Look(d), exception);
    more := more + [Look(d)];
  }

  /** The effect of a running delivery returns `x` and is completed at once. */
  lemma FinishWith(acts: seq<Action>, w: World, d: nat, x: Payload, exception: Rule)
    returns (more: seq<Action>, w': World)
    requires Reaches(acts, w, exception) && d in w.deliveries && w.deliveries[d].phase.Running?
    requires var me := w.deliveries[d];
      var answer := CompleteAnswerFor(w.rows, me.key, x, me.worker, w.clock);
      answer.Accepted? || answer.AlreadyCompleted?
    ensures Reaches(more, w', exception)
    ensures var me := w.deliveries[d];
      w' == w.(rows := AfterComplete(w.rows, me.key, x, me.worker, w.clock),
               deliveries := w.deliveries[d := me.(phase := Done(true, x))], returned := w.returned[d := x])
  {
    if exception != TimelyEffects {
      TimelyNow(acts, w, exception);
    }
    var w1 := Step(acts, w, EffectReturns(d, x), exception);
    more := acts + [EffectReturns(d, x)];
    w' := Step(more, w1, Complete(d, w.clock), exception);
    more := more + [Complete(d, w.clock)];
    assert w'.deliveries == w.deliveries[d := w.deliveries[d].(phase := Done(true, x))];
  }

  /** Deliveries 0 and 1 of key `k` both had their effect return. */
  ghost predicate ReturnedTwice(w: World, k: Key) {
    && 0 in w.deliveries && 1 in w.deliveries && 0 in w.returned && 1 in w.returned
    && w.deliveries[0].key == k && w.deliveries[1].key == k
  }

  /** Two deliveries both ran the effect and one outcome differs from the ledger. */
  ghost predicate RanTwiceAndDisagreed(w: World, k: Key, x: Payload, y: Payload) {
    && ReturnedTwice(w, k) && w.deliveries[0].phase == Done(true, x) && w.deliveries[1].phase == Done(true, y)
    && k in w.rows && w.rows[k].result == Some(y)
  }

  /** The run breaks the excepted rule and keeps the other two. */
  ghost predicate BreaksOnly(acts: seq<Action>, exception: Rule)
    requires Legal(acts)
  {
    forall rule :: Keeps(acts, rule) <==> rule != exception
  }

  lemma Isolates(acts: seq<Action>, w: World, exception: Rule, k: Key)
    requires Reaches(acts, w, exception) && ReturnedTwice(w, k)
    ensures BreaksOnly(acts, exception)
  {
    if Keeps(acts, exception) {
      assert Disciplined(acts);
      DisciplinedRunIsExactlyOnce(acts);
    }
  }

  /** A worker overruns its lease, another one finishes first, and the late worker still
      reports its own result; nothing but timeliness is violated. */
  lemma OverrunRunsTwice(k: Key, a: Worker, b: Worker, x: Payload, y: Payload) returns (acts: seq<Action>)
    requires a != b
    ensures Legal(acts) && RanTwiceAndDisagreed(After(acts), k, x, y) && BreaksOnly(acts, TimelyEffects)
  {
    Start(TimelyEffects);
    var w;
    acts, w := GrantTo([], Initial, 0, k, a, 30.0, TimelyEffects);
    w := Step(acts, w, Tick(31.0), TimelyEffects);
    acts, w := GrantTo(acts + [Tick(31.0)], w, 1, k, b, 30.0, TimelyEffects);
    acts, w := FinishWith(acts, w, 1, y, TimelyEffects);
    acts, w := FinishWith(acts, w, 0, x, TimelyEffects);
    Isolates(acts, w, TimelyEffects, k);
  }

  /** The same worker id re-claims its own live lease. */
  lemma SelfReclaimRunsTwice(k: Key, a: Worker, x: Payload, y: Payload) returns (acts: seq<Action>)
    ensures Legal(acts) && RanTwiceAndDisagreed(After(acts), k, x, y) && BreaksOnly(acts, OneAtATime)
    ensures After(acts).clock < 30.0
  {
    Start(OneAtATime);
    var w;
    acts, w := GrantTo([], Initial, 0, k, a, 30.0, OneAtATime);
    acts, w := GrantTo(acts, w, 1, k, a, 30.0, OneAtATime);
    acts, w := FinishWith(acts, w, 1, y, OneAtATime);
    acts, w := FinishWith(acts, w, 0, x, OneAtATime);
    Isolates(acts, w, OneAtATime, k);
  }

  /** The effect returned, a crash lost the result, and it ran again. */
  lemma LostReturnRunsTwice(k: Key, a: Worker, b: Worker, x: Payload, y: Payload) returns (acts: seq<Action>)
    ensures Legal(acts) && ReturnedTwice(After(acts), k) && BreaksOnly(acts, NoLostReturns)
  {
    Start(NoLostReturns);
    var w;
    acts, w := GrantTo([], Initial, 0, k, a, 30.0, NoLostReturns);
    w := Step(acts, w, EffectReturns(0, x), NoLostReturns);
    acts := acts + [EffectReturns(0, x)];
    w := Step(acts, w, Crash(0), NoLostReturns);
    acts := acts + [Crash(0)];
    w := Step(acts, w, Tick(30.0), NoLostReturns);
    acts, w := GrantTo(acts + [Tick(30.0)], w, 1, k, b, 30.0, NoLostReturns);
    acts, w := FinishWith(acts, w, 1, y, NoLostReturns);
    Isolates(acts, w, NoLostReturns, k);
  }
}
