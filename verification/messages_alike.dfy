// Message tables that differ only in when RESULT rows are published: every writer acts alike on them.
module MessagesAlike {
  import opened Base
  import opened Contracts
  import opened Messages

  // Equal up to the publication state of RESULT rows.
  predicate SameRow(row: OutboxRow, row': OutboxRow) {
    && row.kind == row'.kind && row.body == row'.body && row.expiresAt == row'.expiresAt
    && (row.status.Dead? <==> row'.status.Dead?) && (row.status.Confirmed? <==> row'.status.Confirmed?)
    && (row.kind.Command? ==> row == row')
  }

  ghost predicate SameCommands(a: map<Id, OutboxRow>, b: map<Id, OutboxRow>) {
    a.Keys == b.Keys && forall id | id in a :: SameRow(a[id], b[id])
  }

  lemma SameCommandsTransitive(a: map<Id, OutboxRow>, b: map<Id, OutboxRow>, c: map<Id, OutboxRow>)
    requires SameCommands(a, b) && SameCommands(b, c)
    ensures SameCommands(a, c)
  {
    forall id | id in a ensures SameRow(a[id], c[id]) { assert SameRow(a[id], b[id]) && SameRow(b[id], c[id]); }
  }

  ghost predicate SameTables(t: Tables, u: Tables) {
    t.inbox == u.inbox && SameCommands(t.outbox, u.outbox)
  }

  lemma InsertAlike(t: Tables, u: Tables, id: Id, body: Body, kind: Kind, now: Time, expiresAt: Time)
    requires SameTables(t, u)
    ensures SameTablesOutcome(Insert(t, id, body, kind, now, expiresAt), Insert(u, id, body, kind, now, expiresAt))
  {}

  ghost predicate SameTablesOutcome(x: Tx<Tables>, y: Tx<Tables>) {
    (x.Rollback? && y.Rollback?) || (x.Commit? && y.Commit? && SameTables(x.state, y.state))
  }

  lemma CompleteAlike(t: Tables, u: Tables, id: Id, resultId: Id, now: Time)
    requires SameTables(t, u)
    ensures SameTablesOutcome(Complete(t, id, resultId, now), Complete(u, id, resultId, now))
  {}

  lemma AcknowledgeAlike(t: Tables, u: Tables, id: Id, now: Time)
    requires SameTables(t, u)
    ensures SameTablesOutcome(Acknowledge(t, id, now), Acknowledge(u, id, now))
  {}

  lemma ConfirmAlike(t: Tables, u: Tables, id: Id, now: Time)
    requires SameTables(t, u)
    ensures SameTables(Confirm(t, id, now), Confirm(u, id, now))
  {}

  lemma ExpireAlike(a: map<Id, OutboxRow>, b: map<Id, OutboxRow>, now: Time)
    requires SameCommands(a, b)
    ensures SameCommands(ExpireOutbox(a, now), ExpireOutbox(b, now))
  {
    forall id | id in a ensures SameRow(ExpireRow(a[id], now), ExpireRow(b[id], now)) { assert SameRow(a[id], b[id]); }
  }

  lemma ClaimAlike(a: map<Id, OutboxRow>, b: map<Id, OutboxRow>, ids: set<Id>, now: Time)
    requires SameCommands(a, b)
    ensures SameCommands(Claim(a, ids, now), Claim(b, ids, now))
  {
    forall id | id in a ensures SameRow(ClaimRow(a[id], now), ClaimRow(b[id], now)) { assert SameRow(a[id], b[id]); }
  }

  lemma MarksAlike(a: map<Id, OutboxRow>, b: map<Id, OutboxRow>, id: Id, now: Time, delay: Time, code: string)
    requires SameCommands(a, b)
    ensures SameCommands(MarkPublished(a, id, now, delay), MarkPublished(b, id, now, delay))
    ensures SameCommands(MarkRetry(a, id, now, delay, code), MarkRetry(b, id, now, delay, code))
  {}

  lemma PublishAlike(t: Tables, u: Tables, publisher: PublisherStep, now: Time)
    requires SameTables(t, u)
    ensures SameCommands(PublisherNext(t.outbox, publisher, now), PublisherNext(u.outbox, publisher, now))
  {
    match publisher {
      case ExpireDue => ExpireAlike(t.outbox, u.outbox, now);
      case ClaimBatch(ids) => ClaimAlike(t.outbox, u.outbox, ids, now);
      case PublishedMark(id, delay) => MarksAlike(t.outbox, u.outbox, id, now, delay, "");
      case RetryMark(id, delay, code) => MarksAlike(t.outbox, u.outbox, id, now, delay, code);
    }
  }
}
