/** When an arbitrary run of the delivery protocol executes a key twice: exactly the claims
    that preempt an execution or follow an effect that already returned. */
module ExecutionOverlap {
  import opened Options
  import opened CompletionLedger
  import opened DeliveryProtocol

  // ------------------------------------------------------------ overlapping

  /** Delivery `e` executes the key that `a` claims, and its lease has run out or its worker
      is the claiming one. */
  predicate PreemptsAt(w: World, a: Action, e: nat)
    requires Enabled(w, a) && a.Claim?
  {
    && e in w.deliveries && e != a.d && Active(w.deliveries[e].phase)
    && w.deliveries[e].key == w.deliveries[a.d].key
    && (w.deliveries[e].phase.lease <= a.now || w.deliveries[e].worker == w.deliveries[a.d].worker)
  }

  ghost predicate Preempts(w: World, a: Action)
    requires Enabled(w, a)
  {
    a.Claim? && exists e :: PreemptsAt(w, a, e)
  }

  ghost predicate NeverPreempts(acts: seq<Action>)
    requires Legal(acts)
    decreases |acts|
  {
    acts == [] ||
    (var before, a := acts[..|acts| - 1], acts[|acts| - 1];
     NeverPreempts(before) && !Preempts(After(before), a))
  }

  /** Executions of a key never overlapped up to here. */
  ghost predicate NeverOverlapped(acts: seq<Action>)
    requires Legal(acts)
    decreases |acts|
  {
    NoOverlap(After(acts)) && (acts == [] || NeverOverlapped(acts[..|acts| - 1]))
  }

  /** A claim that is granted without preempting anybody finds no execution of its key. */
  lemma GrantFindsNobody(w: World, a: Action)
    requires HoldersOk(w) && Enabled(w, a) && a.Claim? && !Preempts(w, a) && Grants(w, a.d, a.now)
    ensures forall e :: e in w.deliveries && Active(w.deliveries[e].phase) ==>
      w.deliveries[e].key != w.deliveries[a.d].key
  {
    var k := w.deliveries[a.d].key;
    forall e | e in w.deliveries && Active(w.deliveries[e].phase) ensures w.deliveries[e].key != k {
      if w.deliveries[e].key == k {
        HolderExcludesClaims(w, a.d, e, a.now);
        assert PreemptsAt(w, a, e);
      }
    }
  }

  lemma ClaimKeepsHolders(w: World, a: Action)
    requires HoldersOk(w) && NoOverlap(w) && Enabled(w, a) && a.Claim? && !Preempts(w, a)
    ensures HoldersOk(Next(w, a)) && NoOverlap(Next(w, a))
  {
    if Grants(w, a.d, a.now) {
      GrantFindsNobody(w, a);
      GrantKeepsHolders(w, a.d, a.now);
    } else {
      assert Next(w, a).rows == w.rows;
    }
  }

  lemma ReturnKeepsHolders(w: World, a: Action)
    requires HoldersOk(w) && NoOverlap(w) && Enabled(w, a) && a.EffectReturns?
    ensures HoldersOk(Next(w, a)) && NoOverlap(Next(w, a))
  {
    assert Holds(w, w.deliveries[a.d]);
  }

  lemma StepKeepsHolders(w: World, a: Action)
    requires HoldersOk(w) && NoOverlap(w) && Enabled(w, a) && !Preempts(w, a)
    ensures HoldersOk(Next(w, a)) && NoOverlap(Next(w, a))
  {
    match a
    case Claim(_, _) => ClaimKeepsHolders(w, a);
    case EffectReturns(_, _) => ReturnKeepsHolders(w, a);
    case Complete(d, _) => LedgerCallKeepsHolders(w, d, a);
    case Release(d, _) => LedgerCallKeepsHolders(w, d, a);
    case Crash(_) => SetbackKeepsHolders(w, a);
    case EffectRaises(_) => SetbackKeepsHolders(w, a);
    case _ => QuietStepKeepsHolders(w, a);
  }

  lemma PreemptionOverlaps(w: World, a: Action)
    requires HoldersOk(w) && Enabled(w, a) && Preempts(w, a)
    ensures !NoOverlap(Next(w, a))
  {
    var e :| PreemptsAt(w, a, e);
    HolderExcludesClaims(w, a.d, e, a.now);
    var w' := Next(w, a);
    assert Active(w'.deliveries[a.d].phase) && w'.deliveries[e] == w.deliveries[e];
  }

  /** Over every run: executions of a key never overlap if and only if no claim preempts,
      and then every execution holds the row of its key. */
  lemma {:induction false} OverlapIff(acts: seq<Action>)
    requires Legal(acts)
    ensures NeverOverlapped(acts) <==> NeverPreempts(acts)
    ensures NeverPreempts(acts) ==> HoldersOk(After(acts))
  {
    if acts != [] {
      var before, a := acts[..|acts| - 1], acts[|acts| - 1];
      OverlapIff(before);
      if NeverPreempts(before) {
        if Preempts(After(before), a) {
          PreemptionOverlaps(After(before), a);
        } else {
          StepKeepsHolders(After(before), a);
        }
      }
    }
  }

  // ------------------------------------------------- beside or after a return

  /** The effect of `d` is running, or it has returned. */
  predicate Ran(w: World, d: nat) {
    d in w.deliveries && (Active(w.deliveries[d].phase) || d in w.returned)
  }

  /** No two deliveries of a key are running or have returned. */
  ghost predicate Apart(w: World) {
    forall d, e :: Ran(w, d) && Ran(w, e) && d != e ==> w.deliveries[d].key != w.deliveries[e].key
  }

  ghost predicate AlwaysApart(acts: seq<Action>)
    requires Legal(acts)
    decreases |acts|
  {
    Apart(After(acts)) && (acts == [] || AlwaysApart(acts[..|acts| - 1]))
  }

  /** The effect of `e` returned for the key that `a` claims, but the row was never completed
      and is free for the claiming worker. */
  predicate RepeatsAt(w: World, a: Action, e: nat)
    requires Enabled(w, a) && a.Claim?
  {
    var me := w.deliveries[a.d];
    && e in w.deliveries && e in w.returned && e != a.d && w.deliveries[e].key == me.key
    && me.key in w.rows && w.rows[me.key].status == Started
    && (w.rows[me.key].leaseUntil <= a.now || w.rows[me.key].owner == me.worker)
  }

  ghost predicate Intrudes(w: World, a: Action)
    requires Enabled(w, a)
  {
    Preempts(w, a) || (a.Claim? && exists e :: RepeatsAt(w, a, e))
  }

  ghost predicate NeverIntrudes(acts: seq<Action>)
    requires Legal(acts)
    decreases |acts|
  {
    acts == [] ||
    (var before, a := acts[..|acts| - 1], acts[|acts| - 1];
     NeverIntrudes(before) && !Intrudes(After(before), a))
  }

  predicate HasReturned(p: Phase) { !p.Fresh? && !p.Checked? && !p.Running? }

  /** Whoever ran has a row. */
  ghost predicate RowsThere(w: World) {
    && (forall d :: Ran(w, d) ==> w.deliveries[d].key in w.rows)
    && (forall d :: d in w.returned ==> d in w.deliveries && HasReturned(w.deliveries[d].phase))
  }

  lemma StepKeepsRows(w: World, a: Action)
    requires RowsThere(w) && Enabled(w, a)
    ensures RowsThere(Next(w, a))
  {
  }

  /** Only a granted claim lets a delivery run that did not run before. */
  lemma OtherStepKeepsApart(w: World, a: Action)
    requires RowsThere(w) && Apart(w) && Enabled(w, a) && (a.Claim? ==> !Grants(w, a.d, a.now))
    ensures Apart(Next(w, a))
  {
    var w' := Next(w, a);
    forall d | Ran(w', d) ensures Ran(w, d) && w'.deliveries[d].key == w.deliveries[d].key {
    }
  }

  lemma GrantKeepsApart(w: World, a: Action)
    requires HoldersOk(w) && RowsThere(w) && Apart(w) && Enabled(w, a)
    requires a.Claim? && Grants(w, a.d, a.now) && !Intrudes(w, a)
    ensures Apart(Next(w, a))
  {
    var w', k := Next(w, a), w.deliveries[a.d].key;
    GrantFindsNobody(w, a);
    forall e | Ran(w, e) && e != a.d ensures w.deliveries[e].key != k {
      if w.deliveries[e].key == k {
        assert RepeatsAt(w, a, e);
      }
    }
  }

  lemma IntrusionMeets(w: World, a: Action)
    requires HoldersOk(w) && RowsThere(w) && Enabled(w, a) && Intrudes(w, a)
    ensures Grants(w, a.d, a.now) && !Apart(Next(w, a))
  {
    var w' := Next(w, a);
    var e: nat;
    if Preempts(w, a) {
      e :| PreemptsAt(w, a, e);
      HolderExcludesClaims(w, a.d, e, a.now);
    } else {
      e :| RepeatsAt(w, a, e);
    }
    assert Ran(w', a.d) && Ran(w', e);
  }

  lemma ApartIsNoOverlap(w: World)
    requires Apart(w)
    ensures NoOverlap(w) && OneReturn(w)
  {
    assert forall d :: d in w.deliveries && Active(w.deliveries[d].phase) ==> Ran(w, d);
    assert forall d :: d in w.returned && d in w.deliveries ==> Ran(w, d);
  }

  /** Over every run: no execution ever starts beside or after one of its key that runs or
      has returned, if and only if no claim intrudes; then at most one effect per key returns. */
  lemma {:induction false} ApartIff(acts: seq<Action>)
    requires Legal(acts)
    ensures AlwaysApart(acts) <==> NeverIntrudes(acts)
    ensures RowsThere(After(acts))
    ensures NeverIntrudes(acts) ==> HoldersOk(After(acts)) && OneReturn(After(acts))
  {
    if acts != [] {
      var before, a := acts[..|acts| - 1], acts[|acts| - 1];
      ApartIff(before);
      StepKeepsRows(After(before), a);
      if NeverIntrudes(before) {
        ApartStep(After(before), a);
      }
    }
  }

  lemma ApartStep(w: World, a: Action)
    requires HoldersOk(w) && RowsThere(w) && Apart(w) && Enabled(w, a) && RowsThere(Next(w, a))
    ensures Apart(Next(w, a)) <==> !Intrudes(w, a)
    ensures !Intrudes(w, a) ==> HoldersOk(Next(w, a)) && OneReturn(Next(w, a))
  {
    if Intrudes(w, a) {
      IntrusionMeets(w, a);
    } else {
      ApartIsNoOverlap(w);
      StepKeepsHolders(w, a);
      if a.Claim? && Grants(w, a.d, a.now) {
        GrantKeepsApart(w, a);
      } else {
        OtherStepKeepsApart(w, a);
      }
      ApartIsNoOverlap(Next(w, a));
    }
  }

  /** The three assumptions rule intrusions out. */
  lemma {:induction false} DisciplinedNeverIntrudes(acts: seq<Action>)
    requires Legal(acts) && Disciplined(acts)
    ensures NeverIntrudes(acts)
  {
    if acts != [] {
      var before, a := acts[..|acts| - 1], acts[|acts| - 1];
      DisciplinedStep(acts);
      DisciplinedNeverIntrudes(before);
      DisciplinedRunIsExactlyOnce(before);
      ApartIff(before);
      if Intrudes(After(before), a) {
        IntrusionMeets(After(before), a);
        GrantFindsKeyIdle(After(before), a.d, a.now);
      }
    }
  }
}
