/** The autonomous runtime's run table: polling leases, retries with a bound, and
    the dead-letter queue. */
module Runtime {
  import opened Sequences

  type RunId(==, !new)

  datatype Status = Queued | Running | Waiting | Completed | DeadLettered

  datatype LastError = NoError | StepFailed | BudgetExhausted | OtherReason

  datatype Row = Row(status: Status, attempts: nat, maxAttempts: int, lastError: LastError,
                     nextRunAt: real, leaseUntil: real, updatedAt: real)

  type Rows = map<RunId, Row>

  predicate Due(row: Row, now: real) {
    (row.status.Queued? || row.status.Waiting?) && row.nextRunAt <= now && row.leaseUntil <= now
  }

  function Leased(row: Row, now: real, until: real): Row {
    row.(status := Running, leaseUntil := until, updatedAt := now)
  }

  /** The copy a poll hands out keeps the old time of change. */
  function Handed(row: Row, until: real): Row {
    row.(status := Running, leaseUntil := until)
  }

  /** `save` stamps the time of change. */
  function Saved(state: Row, now: real): Row {
    state.(updatedAt := now)
  }

  /** The holder's copy after `mark_retry`; it is then saved, or dead-lettered. */
  function Retried(state: Row, next: real): Row {
    var counted := state.(attempts := state.attempts + 1, leaseUntil := 0.0);
    if counted.attempts >= counted.maxAttempts
    then counted.(status := DeadLettered, lastError := BudgetExhausted)
    else counted.(status := Waiting, lastError := StepFailed, nextRunAt := next)
  }

  function LeaseAll(rows: Rows, ids: seq<RunId>, now: real, until: real): Rows {
    map id | id in rows :: if id in ids then Leased(rows[id], now, until) else rows[id]
  }

  /** ORDER BY next_run_at, updated_at */
  predicate NotLater(a: Row, b: Row) {
    a.nextRunAt < b.nextRunAt || (a.nextRunAt == b.nextRunAt && a.updatedAt <= b.updatedAt)
  }

  /** `ids` is what the polling query may return. */
  ghost predicate IsSelection(rows: Rows, ids: seq<RunId>, now: real, limit: nat) {
    && NoDup(ids) && |ids| <= limit
    && (forall i :: 0 <= i < |ids| ==> ids[i] in rows && Due(rows[ids[i]], now))
    && (forall i, j :: 0 <= i < j < |ids| ==> NotLater(rows[ids[i]], rows[ids[j]]))
    && (forall id, i :: id in rows && Due(rows[id], now) && id !in ids && 0 <= i < |ids| ==>
          NotLater(rows[ids[i]], rows[id]))
    && (|ids| < limit ==> forall id :: id in rows && Due(rows[id], now) ==> id in ids)
  }

  /** The same from the columns: exactly which runs are waiting for their turn, the most
      overdue first, and of equally overdue ones the longest unchanged. */
  ghost predicate Picks(rows: Rows, ids: seq<RunId>, now: real, limit: nat) {
    && NoDup(ids) && |ids| <= limit
    && (forall i :: 0 <= i < |ids| ==> ids[i] in rows && IsWaiting(rows[ids[i]], now))
    && (forall i, j :: 0 <= i < j < |ids| ==> Precedes(rows[ids[i]], rows[ids[j]]))
    && (forall id :: id in rows && IsWaiting(rows[id], now) && id !in ids ==>
          |ids| == limit && forall i :: 0 <= i < |ids| ==> Precedes(rows[ids[i]], rows[id]))
  }

  ghost predicate IsWaiting(row: Row, now: real) {
    && !row.status.Running? && !row.status.Completed? && !row.status.DeadLettered?
    && !(row.nextRunAt > now) && !(row.leaseUntil > now)
  }

  ghost predicate Precedes(a: Row, b: Row) {
    a.nextRunAt <= b.nextRunAt && (a.nextRunAt == b.nextRunAt ==> a.updatedAt <= b.updatedAt)
  }

  lemma SelectionPicks(rows: Rows, ids: seq<RunId>, now: real, limit: nat)
    ensures IsSelection(rows, ids, now, limit) <==> Picks(rows, ids, now, limit)
  {
    assert forall row :: Due(row, now) <==> IsWaiting(row, now);
    assert forall a, b :: NotLater(a, b) <==> Precedes(a, b);
  }

  /** What a poll does to the table: the picked rows run under the new lease. */
  ghost predicate LeaseAnswers(before: Rows, ids: seq<RunId>, now: real, until: real, after: Rows) {
    && after.Keys == before.Keys
    && forall id :: id in before ==>
         after[id] == if id in ids then before[id].(status := Running, leaseUntil := until, updatedAt := now)
                      else before[id]
  }

  /** What a failed step does: the attempt is counted; the last one goes to the dead letters. */
  ghost predicate RetryAnswers(id: RunId, state: Row, next: real, now: real, before: Rows, after: Rows,
                               letters: seq<RunId>, lettersAfter: seq<RunId>) {
    var last := state.attempts + 1 >= state.maxAttempts;
    && after.Keys == before.Keys + {id} && (forall k :: k in before && k != id ==> after[k] == before[k])
    && after[id].attempts == state.attempts + 1 && after[id].maxAttempts == state.maxAttempts
    && after[id].leaseUntil == 0.0 && after[id].updatedAt == now
    && (last ==> after[id].status == DeadLettered && after[id].lastError == BudgetExhausted
                 && after[id].nextRunAt == state.nextRunAt && lettersAfter == letters + [id])
    && (!last ==> after[id].status == Waiting && after[id].lastError == StepFailed
                  && after[id].nextRunAt == next && lettersAfter == letters)
  }

  class SQLiteRunStore {
    var rows: Rows
    var deadLetters: seq<RunId>

    constructor ()
      ensures rows == map[] && deadLetters == []
    {
      rows, deadLetters := map[], [];
    }

    method Save(id: RunId, state: Row, now: real)
      modifies this`rows
      ensures rows == old(rows)[id := Saved(state, now)]
    {
      rows := rows[id := state.(updatedAt := now)];
    }

    method Earliest(candidates: set<RunId>) returns (first: RunId)
      requires candidates != {} && candidates <= rows.Keys
      ensures first in candidates && forall id :: id in candidates ==> NotLater(rows[first], rows[id])
    {
      first :| first in candidates;
      var rest := candidates - {first};
      while rest != {}
        invariant rest <= candidates && first in candidates
        invariant forall id :: id in candidates - rest ==> NotLater(rows[first], rows[id])
      {
        var id :| id in rest;
        if !NotLater(rows[first], rows[id]) {
          first := id;
        }
        rest := rest - {id};
      }
    }

    method Select(now: real, limit: nat) returns (ids: seq<RunId>)
      ensures IsSelection(rows, ids, now, limit) && Picks(rows, ids, now, limit)
    {
      ids := SelectDue(now, limit);
      SelectionPicks(rows, ids, now, limit);
    }

    method SelectDue(now: real, limit: nat) returns (ids: seq<RunId>)
      ensures IsSelection(rows, ids, now, limit)
    {
      var due := set id | id in rows && Due(rows[id], now);
      ids := [];
      while |ids| < limit && due != {}
        invariant NoDup(ids) && |ids| <= limit && due <= rows.Keys && Elems(ids) !! due
        invariant forall id :: id in rows && Due(rows[id], now) <==> id in due || id in ids
        invariant forall i, j :: 0 <= i < j < |ids| ==> NotLater(rows[ids[i]], rows[ids[j]])
        invariant forall id, i :: id in due && 0 <= i < |ids| ==> NotLater(rows[ids[i]], rows[id])
        decreases limit - |ids|
      {
        var first := Earliest(due);
        ElemsAppend(ids, first);
        due := due - {first};
        ids := ids + [first];
      }
    }

    /** Hand out due runs: each goes from queued or waiting to running. */
    method LeaseDue(now: real, leaseSeconds: real, limit: nat) returns (ids: seq<RunId>, leased: seq<Row>)
      modifies this`rows
      ensures IsSelection(old(rows), ids, now, limit) && Picks(old(rows), ids, now, limit)
      ensures LeaseAnswers(old(rows), ids, now, now + leaseSeconds, rows)
      ensures rows == LeaseAll(old(rows), ids, now, now + leaseSeconds)
      ensures |leased| == |ids|
      ensures forall i :: 0 <= i < |ids| ==>
        ids[i] in rows && leased[i] == rows[ids[i]].(updatedAt := old(rows)[ids[i]].updatedAt)
      ensures forall i :: 0 <= i < |ids| ==>
        ids[i] in old(rows) && leased[i] == Handed(old(rows)[ids[i]], now + leaseSeconds)
    {
      ids := Select(now, limit);
      leased := [];
      for i := 0 to |ids|
        invariant rows == LeaseAll(old(rows), ids[..i], now, now + leaseSeconds)
        invariant |leased| == i
        invariant forall j :: 0 <= j < i ==> leased[j] == Handed(old(rows)[ids[j]], now + leaseSeconds)
      {
        assert ids[i] !in ids[..i];
        assert ids[..i + 1] == ids[..i] + [ids[i]];
        leased := leased + [Handed(rows[ids[i]], now + leaseSeconds)];
        rows := rows[ids[i] := Leased(rows[ids[i]], now, now + leaseSeconds)];
      }
      assert ids[..|ids|] == ids;
    }

    method MarkRetry(id: RunId, state: Row, next: real, now: real)
      modifies this
      ensures RetryAnswers(id, state, next, now, old(rows), rows, old(deadLetters), deadLetters)
      ensures rows == old(rows)[id := Saved(Retried(state, next), now)]
      ensures deadLetters == old(deadLetters) + if Retried(state, next).status.DeadLettered? then [id] else []
    {
      var counted := state.(attempts := state.attempts + 1, leaseUntil := 0.0);
      if counted.attempts >= counted.maxAttempts {
        DeadLetter(id, counted, BudgetExhausted, now);
      } else {
        Save(id, counted.(status := Waiting, lastError := StepFailed, nextRunAt := next), now);
      }
    }

    method DeadLetter(id: RunId, state: Row, reason: LastError, now: real)
      modifies this
      ensures rows == old(rows)[id :=
        Saved(state.(status := DeadLettered, lastError := reason, leaseUntil := 0.0), now)]
      ensures deadLetters == old(deadLetters) + [id]
    {
      Save(id, state.(status := DeadLettered, lastError := reason, leaseUntil := 0.0), now);
      deadLetters := deadLetters + [id];
    }
  }

  // ------------------------------------------------------------------- runs

  datatype Event = LeaseEvent(id: RunId) | RetryEvent(id: RunId)

  /** `held` are the copies that polls handed out and their holders still have. */
  datatype World = World(rows: Rows, held: Rows, deadLetters: seq<RunId>, history: seq<Event>)

  const Initial := World(map[], map[], [], [])

  datatype Action =
    | Submit(id: RunId, maxAttempts: int, nextRunAt: real, now: real)
    | Poll(ids: seq<RunId>, now: real, until: real)
    | MarkRetry(id: RunId, next: real, now: real, letterLost: bool)
    | Complete(id: RunId, now: real)
    | Bury(id: RunId, now: real, letterLost: bool)
    | Invoke(id: RunId, now: real)
    | LoseHolder(id: RunId)

  /** Runs are submitted once and returned only by the holder of their lease. The
      clock of a poll may say anything. */
  ghost predicate Enabled(w: World, a: Action) {
    match a
    case Submit(id, _, _, _) => id !in w.rows
    case Poll(ids, now, _) => NoDup(ids) && forall i :: 0 <= i < |ids| ==> ids[i] in w.rows && Due(w.rows[ids[i]], now)
    case MarkRetry(id, _, _, _) => id in w.held
    case Complete(id, _) => id in w.held
    case Bury(id, _, _) => id in w.held
    case Invoke(id, _) => id in w.held
    case LoseHolder(id) => id in w.held
  }

  function Buried(state: Row): Row {
    state.(status := DeadLettered, lastError := OtherReason, leaseUntil := 0.0)
  }

  function LeaseEvents(ids: seq<RunId>): seq<Event> {
    seq(|ids|, i requires 0 <= i < |ids| => LeaseEvent(ids[i]))
  }

  /** `letterLost`: the process dies between saving the row and writing the letter. */
  ghost function Next(w: World, a: Action): World
    requires Enabled(w, a)
  {
    match a
    case Submit(id, maxAttempts, nextRunAt, now) =>
      w.(rows := w.rows[id := Row(Queued, 0, maxAttempts, NoError, nextRunAt, 0.0, now)])
    case Poll(ids, now, until) =>
      w.(rows := LeaseAll(w.rows, ids, now, until),
         held := w.held + (map id | id in w.rows && id in ids :: Handed(w.rows[id], until)),
         history := w.history + LeaseEvents(ids))
    case MarkRetry(id, next, now, letterLost) =>
      var row := Saved(Retried(w.held[id], next), now);
      w.(rows := w.rows[id := row], held := w.held - {id}, history := w.history + [RetryEvent(id)],
         deadLetters := w.deadLetters + if row.status.DeadLettered? && !letterLost then [id] else [])
    case Complete(id, now) =>
      w.(rows := w.rows[id := Saved(w.held[id].(status := Completed, leaseUntil := 0.0), now)], held := w.held - {id})
    case Bury(id, now, letterLost) =>
      w.(rows := w.rows[id := Saved(Buried(w.held[id]), now)], held := w.held - {id},
         deadLetters := w.deadLetters + if letterLost then [] else [id])
    case Invoke(id, now) =>
      var state := Saved(w.held[id], now);
      w.(rows := w.rows[id := state], held := w.held[id := state])
    case LoseHolder(id) => w.(held := w.held - {id})
  }

  /** How many more leases than recorded attempts a run in this row has had. */
  function Outstanding(row: Row): nat {
    if row.status.Running? || row.status.Completed? || (row.status.DeadLettered? && row.lastError.OtherReason?)
    then 1 else 0
  }

  function Bound(row: Row): nat {
    if row.maxAttempts >= 1 then row.maxAttempts else 1
  }

  ghost function Leases(w: World, id: RunId): nat {
    Count(w.history, LeaseEvent(id))
  }

  ghost predicate RowOk(w: World, id: RunId)
    requires id in w.rows
  {
    var row := w.rows[id];
    && Leases(w, id) == row.attempts + Outstanding(row)
    && Leases(w, id) <= Bound(row)
    && (row.status.Queued? ==> row.attempts == 0)
    && (row.status.Waiting? ==> row.attempts < row.maxAttempts)
  }

  /** Every lease of `id` was followed by a retry. */
  ghost predicate Returned(h: seq<Event>, id: RunId) {
    forall i :: 0 <= i < |h| && h[i] == LeaseEvent(id) ==> RetriedAfter(h, id, i, |h|)
  }

  ghost predicate RetriedAfter(h: seq<Event>, id: RunId, i: int, j: int) {
    exists k :: i < k < j && 0 <= k < |h| && h[k] == RetryEvent(id)
  }

  /** Between two leases of a run lies a retry of it. */
  ghost predicate Alternating(h: seq<Event>) {
    forall i, j :: 0 <= i < j < |h| && h[i] == h[j] && h[i].LeaseEvent? ==> RetriedAfter(h, h[i].id, i, j)
  }

  ghost predicate LettersOk(w: World) {
    && NoDup(w.deadLetters)
    && forall id :: id in w.deadLetters ==> id in w.rows && w.rows[id].status.DeadLettered?
  }

  ghost predicate HoldersOk(w: World) {
    forall id :: id in w.held ==>
      id in w.rows && w.rows[id] == Saved(w.held[id], w.rows[id].updatedAt) && w.held[id].status.Running?
  }

  ghost predicate RowsOk(w: World) {
    && (forall id :: id in w.rows ==> RowOk(w, id))
    && (forall id :: id !in w.rows ==> Leases(w, id) == 0)
  }

  ghost predicate OrderOk(w: World) {
    && Alternating(w.history)
    && forall id :: (id in w.rows ==> Outstanding(w.rows[id]) == 0) ==> Returned(w.history, id)
  }

  ghost predicate Inv(w: World) {
    RowsOk(w) && HoldersOk(w) && LettersOk(w) && OrderOk(w)
  }

  // ----------------------------------------------------------- preservation

  lemma {:induction false} CountLeases(h: seq<Event>, ids: seq<RunId>, id: RunId)
    requires NoDup(ids)
    ensures Count(h + LeaseEvents(ids), LeaseEvent(id)) == Count(h, LeaseEvent(id)) + if id in ids then 1 else 0
  {
    if ids == [] {
      assert h + LeaseEvents(ids) == h;
    } else {
      var front, last := ids[..|ids| - 1], ids[|ids| - 1];
      CountLeases(h, front, id);
      assert h + LeaseEvents(ids) == (h + LeaseEvents(front)) + [LeaseEvent(last)];
      CountUnfold(h + LeaseEvents(front), LeaseEvent(last), LeaseEvent(id));
      assert ids == front + [last];
    }
  }

  lemma RetriedAfterGrows(h: seq<Event>, e: Event, id: RunId, i: int, j: int)
    requires RetriedAfter(h, id, i, j) && j <= |h|
    ensures RetriedAfter(h + [e], id, i, j) && RetriedAfter(h + [e], id, i, |h| + 1)
  {
    var k :| i < k < j && 0 <= k < |h| && h[k] == RetryEvent(id);
    assert (h + [e])[k] == RetryEvent(id);
  }

  lemma AppendKeepsAlternating(h: seq<Event>, e: Event)
    requires Alternating(h) && (e.LeaseEvent? ==> Returned(h, e.id))
    ensures Alternating(h + [e])
  {
    var g := h + [e];
    forall i, j | 0 <= i < j < |g| && g[i] == g[j] && g[i].LeaseEvent? ensures RetriedAfter(g, g[i].id, i, j) {
      assert g[i] == h[i];
      RetriedAfterGrows(h, e, g[i].id, i, j);
    }
  }

  lemma AppendKeepsReturned(h: seq<Event>, e: Event, id: RunId)
    requires Returned(h, id) && e != LeaseEvent(id)
    ensures Returned(h + [e], id)
  {
    var g := h + [e];
    forall i | 0 <= i < |g| && g[i] == LeaseEvent(id) ensures RetriedAfter(g, id, i, |g|) {
      assert g[i] == h[i];
      RetriedAfterGrows(h, e, id, i, |h|);
    }
  }

  lemma RetryReturns(h: seq<Event>, id: RunId)
    ensures Returned(h + [RetryEvent(id)], id)
  {
    assert (h + [RetryEvent(id)])[|h|] == RetryEvent(id);
  }

  lemma {:induction false} LeasesKeepOrder(h: seq<Event>, ids: seq<RunId>)
    requires Alternating(h) && NoDup(ids) && forall i :: 0 <= i < |ids| ==> Returned(h, ids[i])
    ensures Alternating(h + LeaseEvents(ids))
    ensures forall id :: id !in ids && Returned(h, id) ==> Returned(h + LeaseEvents(ids), id)
  {
    if ids == [] {
      assert h + LeaseEvents(ids) == h;
    } else {
      var front, last := ids[..|ids| - 1], ids[|ids| - 1];
      LeasesKeepOrder(h, front);
      var g := h + LeaseEvents(front);
      assert h + LeaseEvents(ids) == g + [LeaseEvent(last)];
      assert Returned(h, last) && last !in front;
      AppendKeepsAlternating(g, LeaseEvent(last));
      forall id | id !in ids && Returned(h, id) ensures Returned(g + [LeaseEvent(last)], id) {
        AppendKeepsReturned(g, LeaseEvent(last), id);
      }
    }
  }

  lemma PollKeepsRows(w: World, ids: seq<RunId>, now: real, until: real)
    requires Inv(w) && Enabled(w, Poll(ids, now, until))
    ensures RowsOk(Next(w, Poll(ids, now, until)))
  {
    var w' := Next(w, Poll(ids, now, until));
    forall id ensures Leases(w', id) == Leases(w, id) + if id in ids then 1 else 0 {
      CountLeases(w.history, ids, id);
    }
    forall id | id in w'.rows ensures RowOk(w', id) {
      assert RowOk(w, id);
    }
  }

  lemma PollKeepsOrder(w: World, ids: seq<RunId>, now: real, until: real)
    requires Inv(w) && Enabled(w, Poll(ids, now, until))
    ensures OrderOk(Next(w, Poll(ids, now, until)))
  {
    forall i | 0 <= i < |ids| ensures Returned(w.history, ids[i]) {
      assert Due(w.rows[ids[i]], now);
    }
    LeasesKeepOrder(w.history, ids);
  }

  lemma PollKeepsRest(w: World, ids: seq<RunId>, now: real, until: real)
    requires Inv(w) && Enabled(w, Poll(ids, now, until))
    ensures HoldersOk(Next(w, Poll(ids, now, until))) && LettersOk(Next(w, Poll(ids, now, until)))
  {
    assert forall id :: id in ids ==> id in w.rows && Due(w.rows[id], now);
  }

  /** A holder returns its run: the row changes, the rest stays. */
  lemma ReturnKeepsInv(w: World, id: RunId, row: Row, retried: bool, letter: bool, w': World)
    requires Inv(w) && id in w.held
    requires w' == World(w.rows[id := row], w.held - {id}, w.deadLetters + (if letter then [id] else []),
                         w.history + if retried then [RetryEvent(id)] else [])
    requires letter ==> row.status.DeadLettered?
    requires row.maxAttempts == w.rows[id].maxAttempts && !row.status.Queued? && !row.status.Running?
    requires row.attempts + Outstanding(row) == w.rows[id].attempts + 1
    requires row.status.Waiting? ==> row.attempts < row.maxAttempts
    requires retried <==> Outstanding(row) == 0
    ensures Inv(w')
  {
    assert RowOk(w, id);
    forall other ensures Leases(w', other) == Leases(w, other) {
      if retried {
        CountUnfold(w.history, RetryEvent(id), LeaseEvent(other));
      } else {
        assert w'.history == w.history;
      }
    }
    assert forall other :: other in w'.rows && other != id ==> RowOk(w, other) && w'.rows[other] == w.rows[other];
    assert id !in w.deadLetters;
    ElemsAppend(w.deadLetters, id);
    ReturnKeepsOrder(w, id, row, retried, w');
  }

  lemma ReturnKeepsOrder(w: World, id: RunId, row: Row, retried: bool, w': World)
    requires OrderOk(w) && id in w.rows && w'.rows == w.rows[id := row]
    requires w'.history == w.history + if retried then [RetryEvent(id)] else []
    requires retried <==> Outstanding(row) == 0
    ensures OrderOk(w')
  {
    if retried {
      AppendKeepsAlternating(w.history, RetryEvent(id));
      forall other | other != id && Returned(w.history, other) ensures Returned(w'.history, other) {
        AppendKeepsReturned(w.history, RetryEvent(id), other);
      }
      RetryReturns(w.history, id);
    } else {
      assert w'.history == w.history;
    }
  }

  lemma StepKeepsInv(w: World, a: Action)
    requires Inv(w) && Enabled(w, a)
    ensures Inv(Next(w, a))
  {
    match a
    case Poll(ids, now, until) =>
      PollKeepsRows(w, ids, now, until);
      PollKeepsOrder(w, ids, now, until);
      PollKeepsRest(w, ids, now, until);
    case MarkRetry(id, next, now, letterLost) => RetryStep(w, id, next, now, letterLost);
    case Complete(id, now) => CompleteStep(w, id, now);
    case Bury(id, now, letterLost) => BuryStep(w, id, now, letterLost);
    case Submit(_, _, _, _) => SubmitStep(w, a);
    case _ => QuietStep(w, a);
  }

  lemma RetryStep(w: World, id: RunId, next: real, now: real, letterLost: bool)
    requires Inv(w) && id in w.held
    ensures Inv(Next(w, Action.MarkRetry(id, next, now, letterLost)))
  {
    var row := Saved(Retried(w.held[id], next), now);
    assert RowOk(w, id);
    ReturnKeepsInv(w, id, row, true, row.status.DeadLettered? && !letterLost,
                   Next(w, Action.MarkRetry(id, next, now, letterLost)));
  }

  lemma CompleteStep(w: World, id: RunId, now: real)
    requires Inv(w) && id in w.held
    ensures Inv(Next(w, Complete(id, now)))
  {
    var w' := Next(w, Complete(id, now));
    ReturnKeepsInv(w, id, w'.rows[id], false, false, w'.(deadLetters := w.deadLetters + [], history := w.history + []));
  }

  lemma BuryStep(w: World, id: RunId, now: real, letterLost: bool)
    requires Inv(w) && id in w.held
    ensures Inv(Next(w, Bury(id, now, letterLost)))
  {
    var w' := Next(w, Bury(id, now, letterLost));
    ReturnKeepsInv(w, id, Saved(Buried(w.held[id]), now), false, !letterLost, w'.(history := w.history + []));
  }

  lemma SubmitStep(w: World, a: Action)
    requires Inv(w) && Enabled(w, a) && a.Submit?
    ensures Inv(Next(w, a))
  {
    assert Count(w.history, LeaseEvent(a.id)) == Leases(w, a.id);
    assert forall other :: other in w.rows ==> RowOk(w, other);
  }

  /** Steps that neither add a run, lease one nor return one. */
  lemma QuietStep(w: World, a: Action)
    requires Inv(w) && Enabled(w, a) && (a.Invoke? || a.LoseHolder?)
    ensures Inv(Next(w, a))
  {
    assert RowOk(w, a.id);
    assert forall other :: other in w.rows ==> RowOk(w, other);
  }

  ghost predicate IsRun(trace: seq<World>, acts: seq<Action>) {
    && |trace| == |acts| + 1 && trace[0] == Initial
    && forall i, j :: 0 <= i < j == i + 1 < |trace| ==> Follows(trace[i], acts[i], trace[j])
  }

  ghost predicate Follows(w: World, a: Action, w': World) {
    Enabled(w, a) && w' == Next(w, a)
  }

  /** Over every run of the table: leases are bounded by the attempt budget, no run is
      handed out twice without a retry in between, and dead letters are unique. */
  lemma {:induction false} EveryRunKeepsInv(trace: seq<World>, acts: seq<Action>, i: nat)
    requires IsRun(trace, acts) && i < |trace|
    ensures Inv(trace[i])
  {
    if i > 0 {
      EveryRunKeepsInv(trace, acts, i - 1);
      StepKeepsInv(trace[i - 1], acts[i - 1]);
    }
  }

  ghost predicate Abandoned(w: World, id: RunId) {
    id in w.rows && w.rows[id].status.Running? && id !in w.held
  }

  /** A run whose holder is gone stays running for good: its lease expires, but no
      poll at any time hands it out again. */
  lemma {:induction false} AbandonedRunIsStuck(trace: seq<World>, acts: seq<Action>, i: nat, j: nat, id: RunId)
    requires IsRun(trace, acts) && i <= j < |trace| && Abandoned(trace[i], id)
    ensures Abandoned(trace[j], id) && trace[j].rows[id] == trace[i].rows[id]
    decreases j
  {
    if i < j {
      AbandonedRunIsStuck(trace, acts, i, j - 1, id);
      StuckStep(trace[j - 1], acts[j - 1], trace[j], id);
    }
  }

  lemma StuckStep(w: World, a: Action, w': World, id: RunId)
    requires Enabled(w, a) && w' == Next(w, a) && Abandoned(w, id)
    ensures Abandoned(w', id) && w'.rows[id] == w.rows[id]
  {
    assert a.Poll? ==> forall i :: 0 <= i < |a.ids| ==> w.rows[a.ids[i]].status != Running;
  }

  /** A running run can leave that state in one step if and only if somebody holds it. */
  lemma RunningMovesIff(w: World, id: RunId)
    requires Inv(w) && id in w.rows && w.rows[id].status.Running?
    ensures (exists a :: Enabled(w, a) && id in Next(w, a).rows && !Next(w, a).rows[id].status.Running?)
       <==> id in w.held
  {
    if id in w.held {
      var a := Complete(id, 0.0);
      assert Enabled(w, a) && id in Next(w, a).rows && !Next(w, a).rows[id].status.Running?;
    } else {
      forall a | Enabled(w, a) ensures Next(w, a).rows[id] == w.rows[id] {
        StuckStep(w, a, Next(w, a), id);
      }
    }
  }

  /** `trace` goes on as `longer`. */
  ghost predicate Continues(trace: seq<World>, acts: seq<Action>, longer: seq<World>, more: seq<Action>) {
    IsRun(longer, more) && trace <= longer && acts <= more
  }

  ghost predicate LeavesRunning(longer: seq<World>, from: nat, id: RunId) {
    exists j :: from <= j < |longer| && id in longer[j].rows && !longer[j].rows[id].status.Running?
  }

  /** Over every run: a running run ever gets anywhere in some continuation if and only if
      it still has a holder. The expiry of its lease plays no part. */
  lemma RecoverableIff(trace: seq<World>, acts: seq<Action>, id: RunId)
    requires IsRun(trace, acts)
    requires id in trace[|acts|].rows && trace[|acts|].rows[id].status.Running?
    ensures (exists longer: seq<World>, more: seq<Action> ::
               Continues(trace, acts, longer, more) && LeavesRunning(longer, |acts|, id))
       <==> id in trace[|acts|].held
  {
    var n := |acts|;
    if id in trace[n].held {
      var a := Complete(id, 0.0);
      var longer, more := trace + [Next(trace[n], a)], acts + [a];
      ExtendRun(trace, acts, a);
      assert Continues(trace, acts, longer, more);
      assert !longer[n + 1].rows[id].status.Running?;
      assert LeavesRunning(longer, n, id);
    } else {
      forall longer: seq<World>, more: seq<Action> | Continues(trace, acts, longer, more)
        ensures !LeavesRunning(longer, n, id)
      {
        assert longer[n] == trace[n];
        forall j | n <= j < |longer| ensures id in longer[j].rows && longer[j].rows[id].status.Running? {
          AbandonedRunIsStuck(longer, more, n, j, id);
        }
      }
    }
  }

  lemma ExtendRun(trace: seq<World>, acts: seq<Action>, a: Action)
    requires IsRun(trace, acts) && Enabled(trace[|acts|], a)
    ensures IsRun(trace + [Next(trace[|acts|], a)], acts + [a])
  {
    var longer, more := trace + [Next(trace[|acts|], a)], acts + [a];
    forall i, j | 0 <= i < j == i + 1 < |longer| ensures Follows(longer[i], more[i], longer[j]) {
      if j < |trace| {
        assert Follows(trace[i], acts[i], trace[j]);
      }
    }
  }

  /** A run is submitted, leased, and its holder goes away. */
  lemma AbandonedIsReached(id: RunId, maxAttempts: int) returns (trace: seq<World>, acts: seq<Action>)
    ensures IsRun(trace, acts) && Abandoned(trace[|acts|], id)
  {
    trace, acts := [Initial], [];
    acts := acts + [Submit(id, maxAttempts, 0.0, 0.0)];
    ExtendRun([Initial], [], acts[0]);
    trace := trace + [Next(trace[0], acts[0])];
    var poll := Poll([id], 1.0, 61.0);
    assert Due(trace[1].rows[id], 1.0);
    ExtendRun(trace, acts, poll);
    trace, acts := trace + [Next(trace[1], poll)], acts + [poll];
    ExtendRun(trace, acts, LoseHolder(id));
    trace, acts := trace + [Next(trace[2], LoseHolder(id))], acts + [LoseHolder(id)];
  }
}
