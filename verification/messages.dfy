// The inbox and outbox tables and every writer of them. A payload digest is ideal: it is the payload itself.
module Messages {
  import opened Base
  import opened Contracts

  datatype InboxStatus = Processing | Completed | Applied | Refused
  datatype InboxRow = InboxRow(
    digest: Body, status: InboxStatus, resultId: Option<Id>, completedAt: Option<Time>, expiresAt: Time)

  datatype Kind = Command | Result
  datatype OutboxStatus = Pending | Publishing | Published | Confirmed | Dead
  datatype OutboxRow = OutboxRow(
    body: Body, kind: Kind, status: OutboxStatus, attempts: nat, nextAttemptAt: Time,
    leaseUntil: Option<Time>, lastErrorCode: Option<string>, createdAt: Time,
    publishedAt: Option<Time>, confirmedAt: Option<Time>, expiresAt: Time)

  datatype Tables = Tables(inbox: map<Id, InboxRow>, outbox: map<Id, OutboxRow>)

  datatype InboxResult = Accepted | Duplicate(completed: bool, resultId: Option<Id>) | Collision

  const LEASE: Time := 30 * SECOND

  // ---- writers used inside a service transaction ----

  function Register(t: Tables, id: Id, digest: Body, expiresAt: Time): (Tables, InboxResult) {
    if id !in t.inbox then
      (t.(inbox := t.inbox[id := InboxRow(digest, Processing, None, None, TruncateToMicros(expiresAt))]), Accepted)
    else if t.inbox[id].digest != digest then (t, Collision)
    else (t, Duplicate(t.inbox[id].status.Completed?, t.inbox[id].resultId))
  }

  predicate IsProcessing(t: Tables, id: Id) {
    id in t.inbox && t.inbox[id].status.Processing?
  }

  function Complete(t: Tables, id: Id, resultId: Id, now: Time): Tx<Tables> {
    if IsProcessing(t, id) then
      Commit(t.(inbox := t.inbox[id := t.inbox[id].(status := Completed, resultId := Some(resultId),
             completedAt := Some(now))]))
    else Rollback
  }

  function Reject(t: Tables, id: Id, now: Time): Tables {
    if IsProcessing(t, id) then
      t.(inbox := t.inbox[id := t.inbox[id].(status := Refused, completedAt := Some(now))])
    else t
  }

  function Acknowledge(t: Tables, id: Id, now: Time): Tx<Tables> {
    if IsProcessing(t, id) then
      Commit(t.(inbox := t.inbox[id := t.inbox[id].(status := Applied, completedAt := Some(now))]))
    else Rollback
  }

  function NewRow(body: Body, kind: Kind, now: Time, expiresAt: Time): OutboxRow {
    OutboxRow(body, kind, Pending, 0, now, None, None, now, None, None, TruncateToMicros(expiresAt))
  }

  // The table refuses a row that expires no later than it is created; an id that exists is left alone.
  function Insert(t: Tables, id: Id, body: Body, kind: Kind, now: Time, expiresAt: Time): Tx<Tables> {
    if TruncateToMicros(expiresAt) <= now then Rollback
    else if id in t.outbox then Commit(t)
    else Commit(t.(outbox := t.outbox[id := NewRow(body, kind, now, expiresAt)]))
  }

  predicate Settled(row: OutboxRow) { row.status.Confirmed? || row.status.Dead? }

  function Requeue(t: Tables, id: Id, now: Time): Tables {
    if id in t.outbox && !Settled(t.outbox[id]) then
      t.(outbox := t.outbox[id := t.outbox[id].(status := Pending, nextAttemptAt := now, leaseUntil := None)])
    else t
  }

  function Confirm(t: Tables, id: Id, now: Time): Tables {
    if id in t.outbox && !t.outbox[id].status.Dead? then
      t.(outbox := t.outbox[id := t.outbox[id].(status := Confirmed, confirmedAt := Some(now), leaseUntil := None)])
    else t
  }

  // What a duplicate delivery does: it asks for its result to be published again.
  function Replay(t: Tables, r: InboxResult, now: Time): Tables
    requires r.Duplicate?
  {
    if r.completed && r.resultId.Some? then Requeue(t, r.resultId.value, now) else t
  }

  // ---- the publisher ----

  function ExpireRow(row: OutboxRow, now: Time): OutboxRow {
    if !Settled(row) && row.expiresAt <= now then
      row.(status := Dead, leaseUntil := None, lastErrorCode := Some("EXPIRED"))
    else row
  }

  function ExpireOutbox(outbox: map<Id, OutboxRow>, now: Time): map<Id, OutboxRow> {
    map id | id in outbox :: ExpireRow(outbox[id], now)
  }

  predicate Claimable(row: OutboxRow, now: Time) {
    && ((row.status.Pending? && row.nextAttemptAt <= now)
        || (row.status.Published? && row.kind.Command? && row.nextAttemptAt <= now)
        || (row.status.Publishing? && row.leaseUntil.Some? && row.leaseUntil.value <= now))
    && row.expiresAt > now
  }

  function ClaimRow(row: OutboxRow, now: Time): OutboxRow {
    if Claimable(row, now) then row.(status := Publishing, leaseUntil := Some(now + LEASE)) else row
  }

  // `ids` are the rows one batch got hold of; rows that are not due are filtered out.
  function Claim(outbox: map<Id, OutboxRow>, ids: set<Id>, now: Time): map<Id, OutboxRow> {
    map id | id in outbox :: if id in ids then ClaimRow(outbox[id], now) else outbox[id]
  }

  // An interval literal carries microseconds.
  function RoundToMicros(delay: Time): (r: Time)
    ensures delay - 500 <= r <= delay + 500
  {
    (delay + 500) / MICROSECOND * MICROSECOND
  }

  function MarkPublished(outbox: map<Id, OutboxRow>, id: Id, now: Time, delay: Time): map<Id, OutboxRow> {
    if id in outbox && outbox[id].status.Publishing? then
      outbox[id := outbox[id].(status := Published, attempts := outbox[id].attempts + 1, publishedAt := Some(now),
      nextAttemptAt := now + RoundToMicros(delay), leaseUntil := None, lastErrorCode := None)]
    else outbox
  }

  function MarkRetry(outbox: map<Id, OutboxRow>, id: Id, now: Time, delay: Time, code: string): map<Id, OutboxRow> {
    if id in outbox && outbox[id].status.Publishing? then
      outbox[id := outbox[id].(status := Pending, attempts := outbox[id].attempts + 1,
      nextAttemptAt := now + RoundToMicros(delay), leaseUntil := None, lastErrorCode := Some(code))]
    else outbox
  }

  // Any step of any publisher worker; a worker that died or lost its lease simply never or lately marks.
  datatype PublisherStep =
    | ExpireDue
    | ClaimBatch(ids: set<Id>)
    | PublishedMark(id: Id, delay: Time)
    | RetryMark(id: Id, delay: Time, code: string)

  function PublisherNext(outbox: map<Id, OutboxRow>, step: PublisherStep, now: Time): map<Id, OutboxRow> {
    match step
    case ExpireDue => ExpireOutbox(outbox, now)
    case ClaimBatch(ids) => Claim(outbox, ids, now)
    case PublishedMark(id, delay) => MarkPublished(outbox, id, now, delay)
    case RetryMark(id, delay, code) => MarkRetry(outbox, id, now, delay, code)
  }

  predicate PublisherEnabled(step: PublisherStep, bound: Time) {
    match step
    case ExpireDue => true
    case ClaimBatch(ids) => true
    case PublishedMark(id, delay) => RoundToMicros(delay) <= bound
    case RetryMark(id, delay, code) => RoundToMicros(delay) <= bound
  }

  // ---- properties of the outbox under all its writers ----

  // When a row that is not settled next becomes claimable.
  function DueAt(row: OutboxRow): Time {
    if row.status.Publishing? && row.leaseUntil.Some? then row.leaseUntil.value else row.nextAttemptAt
  }

  predicate RowOk(row: OutboxRow, now: Time, bound: Time) {
    && (row.status.Publishing? <==> row.leaseUntil.Some?)
    && (row.status.Confirmed? <==> row.confirmedAt.Some?)
    && row.createdAt < row.expiresAt && row.createdAt <= now
    && (!Settled(row) ==> DueAt(row) <= now + bound)
    && (row.status.Pending? && row.attempts == 0 ==> row.nextAttemptAt <= now)
    && (row.status.Dead? ==> row.expiresAt <= now) && (row.kind.Result? ==> !row.status.Confirmed?)
  }

  ghost predicate OutboxOk(outbox: map<Id, OutboxRow>, now: Time, bound: Time) {
    forall id | id in outbox :: RowOk(outbox[id], now, bound)
  }

  // What may happen to one row: its content is fixed and a settled row keeps its status.
  predicate RowEvolves(row: OutboxRow, row': OutboxRow) {
    && row'.body == row.body && row'.kind == row.kind && row'.createdAt == row.createdAt
    && row'.expiresAt == row.expiresAt
    && (Settled(row) ==> row'.status == row.status)
  }

  ghost predicate Evolves(outbox: map<Id, OutboxRow>, outbox': map<Id, OutboxRow>) {
    forall id | id in outbox :: id in outbox' && RowEvolves(outbox[id], outbox'[id])
  }

  // New rows wait to be published and have time left.
  ghost predicate AddsPending(outbox: map<Id, OutboxRow>, outbox': map<Id, OutboxRow>, now: Time) {
    forall id | id in outbox' && id !in outbox ::
      && outbox'[id].status.Pending? && outbox'[id].attempts == 0
      && outbox'[id].createdAt == now && now < outbox'[id].expiresAt
  }

  // A row that was once handed to a worker and is still alive.
  predicate Claimed(row: OutboxRow) {
    !Settled(row) && (row.status.Publishing? || row.status.Published? || row.attempts > 0)
  }

  // Only the publisher hands rows to workers.
  ghost predicate ClaimsNothing(outbox: map<Id, OutboxRow>, outbox': map<Id, OutboxRow>) {
    forall id | id in outbox && id in outbox' :: Claimed(outbox'[id]) ==> Claimed(outbox[id])
  }

  // What a service transaction may do to the outbox.
  ghost predicate RowsStep(outbox: map<Id, OutboxRow>, outbox': map<Id, OutboxRow>, now: Time, bound: Time) {
    OutboxOk(outbox', now, bound) && AddsPending(outbox, outbox', now) && ClaimsNothing(outbox, outbox')
  }

  lemma EvolvesTransitive(a: map<Id, OutboxRow>, b: map<Id, OutboxRow>, c: map<Id, OutboxRow>)
    requires Evolves(a, b) && Evolves(b, c)
    ensures Evolves(a, c)
  {}

  lemma TimePasses(outbox: map<Id, OutboxRow>, now: Time, later: Time, bound: Time)
    requires OutboxOk(outbox, now, bound) && now <= later
    ensures OutboxOk(outbox, later, bound)
  {}

  // Confirmed and dead rows stay so under every publisher step, including marks made after the lease passed, and every
  // live row stays due within the bound.
  lemma PublisherKeepsRows(outbox: map<Id, OutboxRow>, step: PublisherStep, now: Time, bound: Time)
    requires OutboxOk(outbox, now, bound) && LEASE <= bound
    requires PublisherEnabled(step, bound)
    ensures var outbox' := PublisherNext(outbox, step, now);
            OutboxOk(outbox', now, bound) && Evolves(outbox, outbox') && outbox'.Keys == outbox.Keys
  {}

  lemma RequeueKeepsRows(t: Tables, id: Id, now: Time, bound: Time)
    requires OutboxOk(t.outbox, now, bound) && 0 <= bound
    ensures var t' := Requeue(t, id, now);
            RowsStep(t.outbox, t'.outbox, now, bound) && Evolves(t.outbox, t'.outbox) && t'.outbox.Keys == t.outbox.Keys
  {}

  // A result that is asked for again can be handed to a publisher at once exactly as long as it has not expired.
  lemma RequeuedIsClaimable(t: Tables, id: Id, now: Time, bound: Time)
    requires id in t.outbox && RowOk(t.outbox[id], now, bound) && t.outbox[id].kind.Result?
    ensures var t' := Requeue(t, id, now);
            id in t'.outbox && (Claimable(t'.outbox[id], now) <==> now < t.outbox[id].expiresAt)
  {}

  lemma ConfirmKeepsRows(t: Tables, id: Id, now: Time, bound: Time)
    requires OutboxOk(t.outbox, now, bound) && (id in t.outbox ==> t.outbox[id].kind.Command?)
    ensures var t' := Confirm(t, id, now);
            RowsStep(t.outbox, t'.outbox, now, bound) && Evolves(t.outbox, t'.outbox)
            && t'.outbox.Keys == t.outbox.Keys &&
            (id in t'.outbox ==> Settled(t'.outbox[id]))
  {}

  lemma InsertKeepsRows(t: Tables, id: Id, body: Body, kind: Kind, now: Time, expiresAt: Time, bound: Time)
    requires OutboxOk(t.outbox, now, bound) && 0 <= bound
    requires Insert(t, id, body, kind, now, expiresAt).Commit?
    ensures var t' := Insert(t, id, body, kind, now, expiresAt).state;
            RowsStep(t.outbox, t'.outbox, now, bound) && Evolves(t.outbox, t'.outbox)
  {}

  // No stranded command: from any moment on, a live command row can be claimed within the bound, whatever its worker
  // did, unless it expires first.
  lemma CommandBecomesClaimable(row: OutboxRow, now: Time, bound: Time)
    requires RowOk(row, now, bound) && row.kind.Command? && !Settled(row)
    ensures forall t | DueAt(row) <= t < row.expiresAt :: Claimable(row, t)
    ensures DueAt(row) <= now + bound
  {}

  // From one moment of a run to a later one: the row is the same message, a settled row kept its status, and a live
  // command will be claimable within the bound unless it expires first.
  ghost predicate RowLater(row: OutboxRow, row': OutboxRow, now': Time, bound: Time) {
    && row'.body == row.body && (Settled(row) ==> row'.status == row.status)
    && (row'.kind.Command? && !Settled(row') ==>
          DueAt(row') <= now' + bound && forall t | DueAt(row') <= t < row'.expiresAt :: Claimable(row', t))
  }

  lemma RowLaterFrom(row: OutboxRow, row': OutboxRow, now': Time, bound: Time)
    requires RowEvolves(row, row') && RowOk(row', now', bound)
    ensures RowLater(row, row', now', bound)
  {}

  // A row that can never be handed to a worker again.
  predicate Finished(row: OutboxRow, now: Time) { Settled(row) || row.expiresAt <= now }

  lemma FinishedIsNeverClaimed(row: OutboxRow, now: Time)
    requires Finished(row, now)
    ensures forall t | now <= t :: !Claimable(row, t)
  {}

  // ---- what a transaction leaves in place ----

  predicate InboxRowContinues(row: InboxRow, row': InboxRow) {
    row'.digest == row.digest && (!row.status.Processing? ==> row' == row)
  }

  ghost predicate InboxContinues(inbox: map<Id, InboxRow>, inbox': map<Id, InboxRow>) {
    forall id | id in inbox :: id in inbox' && InboxRowContinues(inbox[id], inbox'[id])
  }

  lemma InboxContinuesTransitive(a: map<Id, InboxRow>, b: map<Id, InboxRow>, c: map<Id, InboxRow>)
    requires InboxContinues(a, b) && InboxContinues(b, c)
    ensures InboxContinues(a, c)
  {}

  lemma ConfirmEvolves(t: Tables, id: Id, now: Time)
    ensures Evolves(t.outbox, Confirm(t, id, now).outbox)
  {}

  // ---- the imperative form: statements issued on the two tables ----

  class MessageTables {
    var inbox: map<Id, InboxRow>
    var outbox: map<Id, OutboxRow>

    constructor ()
      ensures Value() == Tables(map[], map[])
    {
      inbox := map[];
      outbox := map[];
    }

    function Value(): Tables
      reads this
    {
      Tables(inbox, outbox)
    }

    method Restore(saved: Tables)
      modifies this
      ensures Value() == saved
    {
      inbox := saved.inbox;
      outbox := saved.outbox;
    }

    method RegisterInbox(id: Id, digest: Body, expiresAt: Time) returns (r: InboxResult)
      modifies this
      ensures (Value(), r) == Register(old(Value()), id, digest, expiresAt)
    {
      if id !in inbox {
        inbox := inbox[id := InboxRow(digest, Processing, None, None, TruncateToMicros(expiresAt))];
        return Accepted;
      }
      var row := inbox[id];
      if row.digest != digest { return Collision; }
      return Duplicate(row.status == Completed, row.resultId);
    }

    method CompleteInbox(id: Id, resultId: Id, now: Time) returns (ok: bool)
      modifies this
      ensures ok <==> Complete(old(Value()), id, resultId, now).Commit?
      ensures Value() == Complete(old(Value()), id, resultId, now).After(old(Value()))
    {
      if id !in inbox || inbox[id].status != Processing { return false; }
      inbox := inbox[id := inbox[id].(status := Completed, resultId := Some(resultId), completedAt := Some(now))];
      return true;
    }

    method RejectInbox(id: Id, now: Time)
      modifies this
      ensures Value() == Reject(old(Value()), id, now)
    {
      if id in inbox && inbox[id].status == Processing {
        inbox := inbox[id := inbox[id].(status := Refused, completedAt := Some(now))];
      }
    }

    method AcknowledgeInbox(id: Id, now: Time) returns (ok: bool)
      modifies this
      ensures ok <==> Acknowledge(old(Value()), id, now).Commit?
      ensures Value() == Acknowledge(old(Value()), id, now).After(old(Value()))
    {
      if id !in inbox || inbox[id].status != Processing { return false; }
      inbox := inbox[id := inbox[id].(status := Applied, completedAt := Some(now))];
      return true;
    }

    method InsertOutbox(id: Id, body: Body, kind: Kind, now: Time, expiresAt: Time) returns (ok: bool)
      modifies this
      ensures ok <==> Insert(old(Value()), id, body, kind, now, expiresAt).Commit?
      ensures Value() == Insert(old(Value()), id, body, kind, now, expiresAt).After(old(Value()))
    {
      var stored := TruncateToMicros(expiresAt);
      if stored <= now { return false; }
      if id !in outbox {
        outbox := outbox[id := OutboxRow(body, kind, Pending, 0, now, None, None, now, None, None, stored)];
      }
      return true;
    }

    method RequeueOutbox(id: Id, now: Time)
      modifies this
      ensures Value() == Requeue(old(Value()), id, now)
    {
      if id in outbox && outbox[id].status != Confirmed && outbox[id].status != Dead {
        outbox := outbox[id := outbox[id].(status := Pending, nextAttemptAt := now, leaseUntil := None)];
      }
    }

    method ConfirmOutbox(id: Id, now: Time)
      modifies this
      ensures Value() == Confirm(old(Value()), id, now)
    {
      if id in outbox && outbox[id].status != Dead {
        outbox := outbox[id := outbox[id].(status := Confirmed, confirmedAt := Some(now), leaseUntil := None)];
      }
    }
  }
}
