/** The durable completion ledger: one table row per idempotency key, read and
    written by claim, complete and release transactions. */
module CompletionLedger {
  import opened Options

  type Key(==, !new)
  type Worker(==, !new)

  /** A result in its stored form. */
  type Payload(==, !new)

  datatype Status = Started | Completed

  datatype Row = Row(status: Status, owner: Worker, leaseUntil: real, result: Option<Payload>,
                     createdAt: real, completedAt: Option<real>)

  type Table = map<Key, Row>

  datatype ClaimAnswer = Granted(record: Row) | Finished(record: Row) | Refused

  datatype CompleteAnswer = Accepted(record: Row) | AlreadyCompleted(record: Row) | NotOwner | Unclaimed

  predicate IsCompleted(rows: Table, k: Key) {
    k in rows && rows[k].status == Completed
  }

  /** A completed row carries its result. */
  predicate RowOk(row: Row) {
    row.status == Completed ==> row.result.Some?
  }

  // ------------------------------------------- the transactions, as functions

  function ClaimAnswerFor(rows: Table, k: Key, owner: Worker, leaseUntil: real, now: real): ClaimAnswer {
    if k !in rows then Granted(Row(Started, owner, leaseUntil, None, now, None))
    else if rows[k].status == Completed then Finished(rows[k])
    else if rows[k].leaseUntil > now && rows[k].owner != owner then Refused
    else Granted(Row(Started, owner, leaseUntil, None, rows[k].createdAt, None))
  }

  function AfterClaim(rows: Table, k: Key, owner: Worker, leaseUntil: real, now: real): Table {
    var answer := ClaimAnswerFor(rows, k, owner, leaseUntil, now);
    if answer.Granted? then rows[k := answer.record] else rows
  }

  function CompleteAnswerFor(rows: Table, k: Key, result: Payload, owner: Worker, now: real): CompleteAnswer {
    if k !in rows then Unclaimed
    else if rows[k].status == Completed then AlreadyCompleted(rows[k])
    else if rows[k].owner != owner then NotOwner
    else Accepted(rows[k].(status := Completed, leaseUntil := 0.0, result := Some(result), completedAt := Some(now)))
  }

  function AfterComplete(rows: Table, k: Key, result: Payload, owner: Worker, now: real): Table {
    var answer := CompleteAnswerFor(rows, k, result, owner, now);
    if answer.Accepted? then rows[k := answer.record] else rows
  }

  function AfterRelease(rows: Table, k: Key, owner: Worker, now: real): Table {
    if k in rows && rows[k].owner == owner && rows[k].status == Started
    then rows[k := rows[k].(leaseUntil := now - 1.0)] else rows
  }

  // ------------------------------------------------------------ the table

  /** When a claim gets each answer, and the row it leaves. */
  ghost predicate ClaimAnswered(rows: Table, k: Key, owner: Worker, leaseUntil: real, now: real, answer: ClaimAnswer,
                                after: Table) {
    && (answer.Finished? <==> k in rows && rows[k].status == Completed)
    && (answer.Refused? <==>
          k in rows && rows[k].status == Started && rows[k].leaseUntil > now && rows[k].owner != owner)
    && (answer.Finished? ==> answer.record == rows[k])
    && (answer.Granted? ==>
          k in after && after == rows[k := after[k]] && answer.record == after[k]
          && after[k] == Row(Started, owner, leaseUntil, None, if k in rows then rows[k].createdAt else now, None))
    && (!answer.Granted? ==> after == rows)
  }

  lemma ClaimAnswers(rows: Table, k: Key, owner: Worker, leaseUntil: real, now: real)
    ensures ClaimAnswered(rows, k, owner, leaseUntil, now, ClaimAnswerFor(rows, k, owner, leaseUntil, now),
                          AfterClaim(rows, k, owner, leaseUntil, now))
  {
  }

  /** When a completion gets each answer, and the row it leaves. */
  ghost predicate CompletionAnswered(rows: Table, k: Key, result: Payload, owner: Worker, now: real,
                                     answer: CompleteAnswer, after: Table) {
    && (answer.Unclaimed? <==> k !in rows)
    && (answer.AlreadyCompleted? <==> k in rows && rows[k].status == Completed)
    && (answer.NotOwner? <==> k in rows && rows[k].status == Started && rows[k].owner != owner)
    && (answer.AlreadyCompleted? ==> answer.record == rows[k])
    && (answer.Accepted? ==>
          k in after && after == rows[k := after[k]] && answer.record == after[k]
          && after[k] == Row(Completed, owner, 0.0, Some(result), rows[k].createdAt, Some(now)))
    && (!answer.Accepted? ==> after == rows)
  }

  lemma CompletionAnswers(rows: Table, k: Key, result: Payload, owner: Worker, now: real)
    ensures CompletionAnswered(rows, k, result, owner, now, CompleteAnswerFor(rows, k, result, owner, now),
                               AfterComplete(rows, k, result, owner, now))
  {
  }

  class SQLiteCompletionLedger {
    var rows: Table

    constructor ()
      ensures rows == map[]
    {
      rows := map[];
    }

    method GetCompleted(k: Key) returns (record: Option<Row>)
      ensures record == if IsCompleted(rows, k) then Some(rows[k]) else None
    {
      if k in rows {
        var found := rows[k];
        if found.status == Completed {
          return Some(found);
        }
      }
      record := None;
    }

    method TryClaim(k: Key, owner: Worker, leaseSeconds: real, now: real) returns (answer: ClaimAnswer)
      modifies this
      ensures answer == ClaimAnswerFor(old(rows), k, owner, now + leaseSeconds, now)
      ensures rows == AfterClaim(old(rows), k, owner, now + leaseSeconds, now)
      ensures ClaimAnswered(old(rows), k, owner, now + leaseSeconds, now, answer, rows)
    {
      var leaseUntil := now + leaseSeconds;
      if k !in rows {
        rows := rows[k := Row(Started, owner, leaseUntil, None, now, None)];
        return Granted(rows[k]);
      }
      var record := rows[k];
      if record.status == Completed {
        return Finished(record);
      }
      if record.leaseUntil > now && record.owner != owner {
        return Refused;
      }
      rows := rows[k := record.(status := Started, owner := owner, leaseUntil := leaseUntil,
                                result := None, completedAt := None)];
      answer := Granted(rows[k]);
    }

    method Complete(k: Key, result: Payload, owner: Worker, now: real) returns (answer: CompleteAnswer)
      modifies this
      ensures answer == CompleteAnswerFor(old(rows), k, result, owner, now)
      ensures rows == AfterComplete(old(rows), k, result, owner, now)
      ensures CompletionAnswered(old(rows), k, result, owner, now, answer, rows)
    {
      if k !in rows {
        return Unclaimed;
      }
      var record := rows[k];
      if record.status == Completed {
        return AlreadyCompleted(record);
      }
      if record.owner != owner {
        return NotOwner;
      }
      rows := rows[k := record.(status := Completed, leaseUntil := 0.0, result := Some(result),
                                completedAt := Some(now))];
      answer := Accepted(rows[k]);
    }

    method Release(k: Key, owner: Worker, now: real)
      modifies this
      ensures rows == AfterRelease(old(rows), k, owner, now)
      ensures k !in old(rows) || old(rows)[k].status == Completed || old(rows)[k].owner != owner ==> rows == old(rows)
      ensures k in old(rows) && old(rows)[k].status == Started && old(rows)[k].owner == owner ==>
        rows == old(rows)[k := old(rows)[k].(leaseUntil := now - 1.0)]
    {
      if k in rows && rows[k].owner == owner && rows[k].status == Started {
        rows := rows[k := rows[k].(leaseUntil := now - 1.0)];
      }
    }
  }

  // --------------------------------------------- transactions of other workers

  datatype Transaction =
    | ClaimTx(key: Key, owner: Worker, leaseUntil: real, now: real)
    | CompleteTx(key: Key, result: Payload, owner: Worker, now: real)
    | ReleaseTx(key: Key, owner: Worker, now: real)

  function AfterTx(rows: Table, tx: Transaction): Table {
    match tx
    case ClaimTx(k, owner, leaseUntil, now) => AfterClaim(rows, k, owner, leaseUntil, now)
    case CompleteTx(k, result, owner, now) => AfterComplete(rows, k, result, owner, now)
    case ReleaseTx(k, owner, now) => AfterRelease(rows, k, owner, now)
  }

  function AfterAll(rows: Table, txs: seq<Transaction>): Table {
    if txs == [] then rows else AfterTx(AfterAll(rows, txs[..|txs| - 1]), txs[|txs| - 1])
  }

  ghost predicate TableOk(rows: Table) {
    forall k :: k in rows ==> RowOk(rows[k])
  }

  /** Whatever other workers do, a completed row stays as it is. */
  lemma {:induction false} TransactionsKeepCompleted(rows: Table, txs: seq<Transaction>)
    ensures TableOk(rows) ==> TableOk(AfterAll(rows, txs))
    ensures forall k :: IsCompleted(rows, k) ==> k in AfterAll(rows, txs) && AfterAll(rows, txs)[k] == rows[k]
  {
    if txs != [] {
      TransactionsKeepCompleted(rows, txs[..|txs| - 1]);
    }
  }

  // ------------------------------------------------------------- deliveries

  function OwnerOf(tx: Transaction): Worker {
    match tx case ClaimTx(_, o, _, _) => o case CompleteTx(_, _, o, _) => o case ReleaseTx(_, o, _) => o
  }

  function TimeOf(tx: Transaction): real {
    match tx case ClaimTx(_, _, _, t) => t case CompleteTx(_, _, _, t) => t case ReleaseTx(_, _, t) => t
  }

  /** Only other workers act, and before the lease ends. */
  ghost predicate WithinLease(txs: seq<Transaction>, worker: Worker, leaseUntil: real) {
    forall i :: 0 <= i < |txs| ==> OwnerOf(txs[i]) != worker && TimeOf(txs[i]) < leaseUntil
  }

  /** A live lease shields its row from everybody else. */
  lemma {:induction false} LeaseProtects(rows: Table, txs: seq<Transaction>, k: Key)
    requires k in rows && rows[k].status == Started && WithinLease(txs, rows[k].owner, rows[k].leaseUntil)
    ensures k in AfterAll(rows, txs) && AfterAll(rows, txs)[k] == rows[k]
  {
    if txs != [] {
      var before, last := txs[..|txs| - 1], txs[|txs| - 1];
      LeaseProtects(rows, before, k);
      assert OwnerOf(last) != rows[k].owner && TimeOf(last) < rows[k].leaseUntil;
    }
  }

  /** The key can be claimed by the worker at this time. */
  predicate Claimable(rows: Table, k: Key, worker: Worker, now: real) {
    k !in rows || (rows[k].status == Started && (rows[k].leaseUntil <= now || rows[k].owner == worker))
  }

  /** What a delivery whose lease outlasts it comes to; `claimTime` is the table at its claim. */
  ghost predicate Shielded(claimTime: Table, k: Key, worker: Worker, effect: Effect, claimed: real, finished: real,
                           r: DeliveryResult, after: Table) {
    && (Claimable(claimTime, k, worker, claimed) && effect.Returns? ==>
          r == Delivered(true, effect.result) && k in after && after[k].completedAt == Some(finished)
          && after[k].status == Completed && after[k].owner == worker && after[k].result == Some(effect.result))
    && (Claimable(claimTime, k, worker, claimed) && effect.Raises? ==>
          r == EffectFailed && forall other, later :: later >= finished ==> Claimable(after, k, other, later))
    && (IsCompleted(claimTime, k) <==> r.Delivered? && !r.executed)
    && (r.Conflict? <==> !Claimable(claimTime, k, worker, claimed) && !IsCompleted(claimTime, k))
  }

  /** What a delivery comes to whatever the others do: the row its claim leaves, their
      transactions, and then the worker's own release or completion. */
  ghost predicate SettledAs(claimTime: Table, k: Key, worker: Worker, leaseUntil: real, effect: Effect, claimed: real,
                            finished: real, during: seq<Transaction>, r: DeliveryResult, after: Table) {
    Claimable(claimTime, k, worker, claimed) ==>
      var createdAt := if k in claimTime then claimTime[k].createdAt else claimed;
      var row := Row(Started, worker, leaseUntil, None, createdAt, None);
      var found := AfterAll(claimTime[k := row], during);
      var still := k in found && found[k].status == Started && found[k].owner == worker;
      && (effect.Raises? ==>
            r == EffectFailed && after == if still then found[k := found[k].(leaseUntil := finished - 1.0)] else found)
      && (effect.Returns? ==>
            r == (if still || IsCompleted(found, k) then Delivered(true, effect.result) else Conflict)
            && after == if !still then found
                        else found[k := Row(Completed, worker, 0.0, Some(effect.result), found[k].createdAt,
                                            Some(finished))])
  }

  /** What the caller's side effect does: return a result or raise. */
  datatype Effect = Returns(result: Payload) | Raises

  datatype DeliveryResult =
    | Delivered(executed: bool, result: Payload)
    | EffectFailed
    | Conflict
    | MissingKey

  class IdempotentTaskDeliverer {
    const ledger: SQLiteCompletionLedger
    const worker: Worker
    const leaseSeconds: real

    constructor (ledger: SQLiteCompletionLedger, worker: Worker, leaseSeconds: real)
      ensures this.ledger == ledger && this.worker == worker && this.leaseSeconds == leaseSeconds
    {
      this.ledger, this.worker, this.leaseSeconds := ledger, worker, leaseSeconds;
    }

    /** The other workers' transactions that fall between two steps of a delivery. */
    method OthersRun(txs: seq<Transaction>)
      modifies ledger
      ensures ledger.rows == AfterAll(old(ledger.rows), txs)
    {
      for i := 0 to |txs|
        invariant ledger.rows == AfterAll(old(ledger.rows), txs[..i])
      {
        assert txs[..i + 1][..i] == txs[..i];
        ledger.rows := AfterTx(ledger.rows, txs[i]);
      }
      assert txs[..|txs|] == txs;
    }

    /** `claimed` and `finished` are this worker's clock readings; `before` runs
        between its first look and its claim, `during` while its effect runs. */
    method Deliver(key: Option<Key>, effect: Effect, claimed: real, finished: real,
                   before: seq<Transaction>, during: seq<Transaction>) returns (r: DeliveryResult)
      requires TableOk(ledger.rows)
      modifies ledger
      ensures TableOk(ledger.rows) && (r.MissingKey? <==> key.None?)
      ensures key.Some? && IsCompleted(old(ledger.rows), key.value) ==>
        (r == Delivered(false, old(ledger.rows)[key.value].result.value) && ledger.rows == old(ledger.rows))
      ensures r.Delivered? ==> IsCompleted(ledger.rows, key.value)
      ensures r.Delivered? && !r.executed ==> ledger.rows[key.value].result == Some(r.result)
      ensures r.Delivered? && r.executed ==>
        (effect == Returns(r.result) && !IsCompleted(old(ledger.rows), key.value))
      ensures r.Delivered? && r.executed && during == [] ==> ledger.rows[key.value].result == Some(r.result)
      ensures during == [] && r.Conflict? ==>
        (key.value in ledger.rows && ledger.rows[key.value].leaseUntil > claimed
         && ledger.rows[key.value].owner != worker && ledger.rows == AfterAll(old(ledger.rows), before))
      ensures during == [] && r.EffectFailed? ==>
        (effect.Raises? && forall other, lease, later :: later >= finished ==>
           ClaimAnswerFor(ledger.rows, key.value, other, lease, later).Granted?)
      ensures key.Some? && WithinLease(during, worker, claimed + leaseSeconds) ==>
        Shielded(AfterAll(old(ledger.rows), before), key.value, worker, effect, claimed, finished, r, ledger.rows)
      ensures key.Some? ==> SettledAs(AfterAll(old(ledger.rows), before), key.value, worker, claimed + leaseSeconds,
                                      effect, claimed, finished, during, r, ledger.rows)
    {
      if key.None? {
        return MissingKey;
      }
      TransactionsKeepCompleted(ledger.rows, before);
      var existing := ledger.GetCompleted(key.value);
      if existing.Some? {
        return Delivered(false, existing.value.result.value);
      }
      OthersRun(before);
      r := ClaimAndRun(key.value, effect, claimed, finished, during);
    }

    /** The delivery from its claim on. */
    method ClaimAndRun(k: Key, effect: Effect, claimed: real, finished: real, during: seq<Transaction>)
      returns (r: DeliveryResult)
      requires TableOk(ledger.rows)
      modifies ledger
      ensures TableOk(ledger.rows) && !r.MissingKey?
      ensures r.Delivered? ==> IsCompleted(ledger.rows, k)
      ensures r.Delivered? && !r.executed ==>
        IsCompleted(old(ledger.rows), k) && ledger.rows[k].result == Some(r.result)
      ensures r.Delivered? && r.executed ==> effect == Returns(r.result) && !IsCompleted(old(ledger.rows), k)
      ensures r.Conflict? && during == [] ==>
        (k in ledger.rows && ledger.rows[k].leaseUntil > claimed && ledger.rows[k].owner != worker
         && ledger.rows == old(ledger.rows))
      ensures r.EffectFailed? ==> effect.Raises?
      ensures r.EffectFailed? && during == [] ==> forall other, lease, later :: later >= finished ==>
        ClaimAnswerFor(ledger.rows, k, other, lease, later).Granted?
      ensures WithinLease(during, worker, claimed + leaseSeconds) ==>
        Shielded(old(ledger.rows), k, worker, effect, claimed, finished, r, ledger.rows)
      ensures SettledAs(old(ledger.rows), k, worker, claimed + leaseSeconds, effect, claimed, finished, during, r,
                        ledger.rows)
    {
      var answer := ledger.TryClaim(k, worker, leaseSeconds, claimed);
      if answer.Refused? {
        return Conflict;
      }
      if answer.Finished? {
        return Delivered(false, answer.record.result.value);
      }
      ghost var held := ledger.rows;
      if WithinLease(during, worker, claimed + leaseSeconds) {
        LeaseProtects(held, during, k);
      }
      OthersRun(during);
      TransactionsKeepCompleted(held, during);
      r := RunEffect(k, effect, finished);
    }

    /** The effect, and the ledger call behind it. */
    method RunEffect(k: Key, effect: Effect, finished: real) returns (r: DeliveryResult)
      requires TableOk(ledger.rows)
      modifies ledger
      ensures TableOk(ledger.rows)
      ensures effect.Raises? ==> r == EffectFailed && ledger.rows == AfterRelease(old(ledger.rows), k, worker, finished)
      ensures effect.Returns? ==> r == Delivered(true, effect.result) || r == Conflict
      ensures effect.Returns? ==> ledger.rows == AfterComplete(old(ledger.rows), k, effect.result, worker, finished)
      ensures r.Conflict? <==>
        (effect.Returns?
         && (k !in old(ledger.rows) || (old(ledger.rows)[k].status == Started && old(ledger.rows)[k].owner != worker)))
    {
      if effect.Raises? {
        ledger.Release(k, worker, finished);
        return EffectFailed;
      }
      var completed := ledger.Complete(k, effect.result, worker, finished);
      if completed.NotOwner? || completed.Unclaimed? {
        return Conflict;
      }
      r := Delivered(true, effect.result);
    }
  }
}
