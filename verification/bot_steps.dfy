// What the invariant of the bot needs to survive a change, table by table.
module BotSteps {
  import opened Base
  import opened Messages
  import opened Bot
  import opened BotInvariant
  import opened BotHistory

  // ---- commands ----

  lemma ReserveStays(s: Flow, s': Flow, op: Id, now: Time, later: Time)
    requires op in s.attempts && op in s'.attempts && AttemptContinues(s.attempts[op], s'.attempts[op])
    requires ReserveOk(s, op, now) && now <= later && Evolves(s.tables.outbox, s'.tables.outbox)
    requires s.attempts[op].status.AwaitingReservation? ==> ReserveResolved(s', op, later)
    requires AttemptOk(s, op) && SessionContinues(s, s', s.attempts[op].sessionId)
    ensures ReserveOk(s', op, later)
  {}

  predicate ReserveResolved(s: Flow, op: Id, now: Time)
    requires op in s.attempts
  {
    var attempt := s.attempts[op];
    attempt.reserveId in s.tables.outbox ==>
      || Settled(s.tables.outbox[attempt.reserveId]) || attempt.status.AwaitingReservation?
      || (attempt.status.AttemptExpired? && attempt.offer.None? && attempt.createdAt + 2 * MINUTE <= now)
  }

  predicate VerifyResolved(s: Flow, op: Id, now: Time)
    requires op in s.attempts
  {
    var attempt := s.attempts[op];
    attempt.verifyId.Some? && attempt.verifyId.value in s.tables.outbox ==>
      var row := s.tables.outbox[attempt.verifyId.value];
      Settled(row) || attempt.status.AwaitingVerification? || (attempt.status.AttemptExpired? && row.expiresAt <= now)
  }

  lemma VerifyStays(s: Flow, s': Flow, op: Id, now: Time, later: Time)
    requires op in s.attempts && op in s'.attempts && AttemptContinues(s.attempts[op], s'.attempts[op])
    requires s'.attempts[op].verifyId == s.attempts[op].verifyId && AttemptOk(s, op)
    requires VerifyOk(s, op, now) && now <= later && Evolves(s.tables.outbox, s'.tables.outbox)
    requires SessionContinues(s, s', s.attempts[op].sessionId)
    requires s.attempts[op].status.AwaitingVerification? ==> VerifyResolved(s', op, later)
    ensures VerifyOk(s', op, later)
  {}

  ghost predicate OthersKept(s: Flow, s': Flow, op: Id) {
    && (forall o | o in s.attempts && o != op :: o in s'.attempts && s'.attempts[o] == s.attempts[o])
    && (forall o | o in s'.attempts && o != op :: o in s.attempts)
  }

  // Commands of the other attempts.
  lemma OtherCommandsStay(s: Flow, s': Flow, op: Id, now: Time, later: Time, o: Id)
    requires o in s.attempts && o != op && OthersKept(s, s', op) && AttemptOk(s, o)
    requires ReserveOk(s, o, now) && VerifyOk(s, o, now) && now <= later && Evolves(s.tables.outbox, s'.tables.outbox)
    requires SessionContinues(s, s', s.attempts[o].sessionId)
    ensures ReserveOk(s', o, later) && VerifyOk(s', o, later)
  {}

  lemma CommandsStay(s: Flow, s': Flow, op: Id, now: Time, later: Time)
    requires CommandsOk(s, now) && AttemptsOk(s) && OthersKept(s, s', op) && now <= later
    requires Evolves(s.tables.outbox, s'.tables.outbox) && SessionsContinue(s, s')
    requires op in s'.attempts ==> ReserveOk(s', op, later) && VerifyOk(s', op, later)
    ensures CommandsOk(s', later)
  {
    forall o | o in s'.attempts ensures ReserveOk(s', o, later) && VerifyOk(s', o, later) {
      if o != op {
        assert ReserveOk(s, o, now) && VerifyOk(s, o, now) && AttemptOk(s, o);
        OtherCommandsStay(s, s', op, now, later, o);
      }
    }
  }

  // ---- outbox and inbox ----

  lemma OutboxRowStays(s: Flow, s': Flow, id: Id)
    requires id in s.tables.outbox && OutboxRowOk(s, id)
    requires Evolves(s.tables.outbox, s'.tables.outbox) && AttemptsContinue(s, s')
    ensures id in s'.tables.outbox && OutboxRowOk(s', id)
  {}

  lemma OutboxRowsStay(s: Flow, s': Flow)
    requires OutboxRowsOk(s) && Evolves(s.tables.outbox, s'.tables.outbox) && AttemptsContinue(s, s')
    requires forall id | id in s'.tables.outbox && id !in s.tables.outbox :: OutboxRowOk(s', id)
    ensures OutboxRowsOk(s')
  {
    forall id | id in s'.tables.outbox ensures OutboxRowOk(s', id) {
      if id in s.tables.outbox { OutboxRowStays(s, s', id); }
    }
  }

  lemma InvitesStay(s: Flow, s': Flow)
    requires InvitesOk(s) && InvitesContinue(s, s') && s'.invites.Keys == s.invites.Keys
    requires Evolves(s.tables.outbox, s'.tables.outbox) && InboxContinues(s.tables.inbox, s'.tables.inbox)
    ensures InvitesOk(s')
  {
    assert forall token | token in s.invites :: InviteContinues(s.invites[token], s'.invites[token]);
    forall token | token in s'.invites ensures InviteOk(s', token) {
      assert InviteOk(s, token);
      InviteStays(s, s', token);
    }
  }

  lemma InviteStays(s: Flow, s': Flow, token: string)
    requires token in s.invites && token in s'.invites && InviteOk(s, token)
    requires InviteContinues(s.invites[token], s'.invites[token])
    requires Evolves(s.tables.outbox, s'.tables.outbox) && InboxContinues(s.tables.inbox, s'.tables.inbox)
    ensures InviteOk(s', token)
  {
    var invite := s.invites[token];
    assert RowEvolves(s.tables.outbox[invite.resultId], s'.tables.outbox[invite.resultId]);
    assert InboxRowContinues(s.tables.inbox[invite.commandId], s'.tables.inbox[invite.commandId]);
  }

  // One invite is added, answered, for an operation that had none.
  ghost predicate AddsInvite(s: Flow, s': Flow, token: string) {
    && token !in s.invites && token in s'.invites && s'.invites == s.invites[token := s'.invites[token]]
    && InviteOk(s', token) && !InviteTaken(s, s'.invites[token].operationId, token)
  }

  lemma InvitesGrow(s: Flow, s': Flow, token: string)
    requires InvitesOk(s) && AddsInvite(s, s', token)
    requires Evolves(s.tables.outbox, s'.tables.outbox) && InboxContinues(s.tables.inbox, s'.tables.inbox)
    ensures InvitesOk(s')
  {
    forall other | other in s'.invites ensures InviteOk(s', other) {
      if other != token {
        assert InviteOk(s, other);
        InviteStays(s, s', other);
      }
    }
  }

  // At most one message was added, and it is handled.
  ghost predicate InboxGrows(s: Flow, s': Flow, id: Id) {
    && (forall other | other in s.tables.inbox :: other in s'.tables.inbox
                                                  && s'.tables.inbox[other] == s.tables.inbox[other])
    && (forall other | other in s'.tables.inbox && other !in s.tables.inbox :: other == id
                                                                               && HandledRow(s'.tables.inbox[id],
                                                                                             s'.tables.outbox))
  }

  lemma InboxStays(s: Flow, s': Flow, id: Id)
    requires InboxOk(s) && Evolves(s.tables.outbox, s'.tables.outbox) && InboxGrows(s, s', id)
    ensures InboxOk(s') && InboxContinues(s.tables.inbox, s'.tables.inbox)
  {}

  // ---- a change of messages and invites alone ----

  ghost predicate OnlyTables(s: Flow, s': Flow) {
    s' == s.(tables := s'.tables, invites := s'.invites)
  }

  lemma OnlyTablesContinues(s: Flow, s': Flow)
    requires ConversationsOk(s) && OnlyTables(s, s')
    ensures AttemptsContinue(s, s') && SessionsContinue(s, s')
  {}

  lemma OnlyTablesKeepsFlow(s: Flow, s': Flow)
    requires AttemptsOk(s) && ConversationsOk(s) && UsersUnique(s) && ProjectionOk(s) && TransactionsUnique(s)
    requires OnlyTables(s, s')
    ensures AttemptsOk(s') && ConversationsOk(s') && UsersUnique(s') && ProjectionOk(s') && TransactionsUnique(s')
  {
    forall op | op in s'.attempts ensures AttemptOk(s', op) { assert AttemptOk(s, op); }
    forall id | id in s'.inactive ensures ConversationOk(s', id) { assert ConversationOk(s, id); }
    ActivatedStays(s, s');
  }

  ghost predicate SameActivations(s: Flow, s': Flow) {
    forall id: Id, op: Id :: ActivatedBy(s', id, op) <==> ActivatedBy(s, id, op)
  }

  lemma ActivatedStays(s: Flow, s': Flow)
    requires ProjectionOk(s) && s'.projection == s.projection && SameActivations(s, s')
    ensures ProjectionOk(s')
  {}

  lemma OnlyTablesKeepsCommands(s: Flow, s': Flow, now: Time, later: Time)
    requires AttemptsOk(s) && ConversationsOk(s) && CommandsOk(s, now) && now <= later
    requires OnlyTables(s, s') && Evolves(s.tables.outbox, s'.tables.outbox)
    ensures CommandsOk(s', later)
  {}

  // Rows evolve, rows may be added that belong, and at most one handled message is added.
  lemma TablesChangeKeepsInv(s: Flow, s': Flow, id: Id, now: Time, later: Time)
    requires Inv(s, now) && now <= later && OnlyTables(s, s') && InvitesContinue(s, s')
    requires Evolves(s.tables.outbox, s'.tables.outbox) && InboxGrows(s, s', id)
    requires forall row | row in s'.tables.outbox && row !in s.tables.outbox :: OutboxRowOk(s', row)
    requires s'.invites.Keys == s.invites.Keys || InvitesOk(s')
    ensures Inv(s', later) && Continues(s, s')
  {
    OnlyTablesContinues(s, s');
    OnlyTablesKeepsFlow(s, s');
    OnlyTablesKeepsCommands(s, s', now, later);
    OutboxRowsStay(s, s');
    InboxStays(s, s', id);
    if s'.invites.Keys == s.invites.Keys { InvitesStay(s, s'); }
  }

  lemma TimePassesCommands(s: Flow, now: Time, later: Time)
    requires CommandsOk(s, now) && now <= later
    ensures CommandsOk(s, later)
  {
    forall o | o in s.attempts ensures ReserveOk(s, o, later) && VerifyOk(s, o, later) {
      assert ReserveOk(s, o, now) && VerifyOk(s, o, now);
    }
  }

  lemma TimePassesInv(s: Flow, now: Time, later: Time)
    requires Inv(s, now) && now <= later
    ensures Inv(s, later) && Continues(s, s)
  {
    TimePassesCommands(s, now, later);
    ContinuesReflexive(s);
  }

  // ---- an open attempt moves on, with its dialog ----

  predicate Fits(dialog: Dialog, status: AttemptStatus) {
    if Open(status) then StatusOf(dialog) == Some(status)
    else dialog.DialogRejected? && (status.AttemptRejected? || status.AttemptExpired?)
  }

  // Nothing but the attempt, its dialog and the messages changes.
  ghost predicate Advances(s: Flow, s': Flow, op: Id, dialog: Dialog, now: Time) {
    && op in s.attempts && op in s'.attempts && Open(s.attempts[op].status)
    && s'.attempts == s.attempts[op := s'.attempts[op]]
    && AttemptContinues(s.attempts[op], s'.attempts[op]) && AttemptShape(s'.attempts[op])
    && Fits(dialog, s'.attempts[op].status)
    && s'.inactive == SetDialog(s, s.attempts[op].sessionId, dialog, now)
    && s'.projection == s.projection && s'.invites == s.invites
  }

  lemma AdvanceKeepsDialogs(s: Flow, s': Flow, op: Id, dialog: Dialog, now: Time)
    requires Advances(s, s', op, dialog, now) && AttemptsOk(s) && ConversationsOk(s)
    ensures AttemptsOk(s') && ConversationsOk(s')
  {}

  lemma AdvanceContinues(s: Flow, s': Flow, op: Id, dialog: Dialog, now: Time)
    requires Advances(s, s', op, dialog, now) && ConversationsOk(s)
    ensures AttemptsContinue(s, s') && SessionsContinue(s, s') && InvitesContinue(s, s') && OthersKept(s, s', op)
  {}

  lemma AdvanceKeepsUsers(s: Flow, s': Flow, op: Id, dialog: Dialog, now: Time)
    requires Advances(s, s', op, dialog, now) && UsersUnique(s)
    ensures UsersUnique(s')
  {}

  lemma AdvanceKeepsProjection(s: Flow, s': Flow, op: Id, dialog: Dialog, now: Time)
    requires Advances(s, s', op, dialog, now) && ProjectionOk(s)
    ensures ProjectionOk(s')
  {
    assert SameActivations(s, s');
    ActivatedStays(s, s');
  }

  // The transaction id is kept, or it was free.
  predicate TransactionFree(s: Flow, s': Flow, op: Id)
    requires op in s.attempts && op in s'.attempts
  {
    || s'.attempts[op].transactionId == s.attempts[op].transactionId
    || (s'.attempts[op].transactionId.Some? && !TransactionTaken(s, op, s'.attempts[op].network,
                                                                 s'.attempts[op].transactionId.value))
  }

  lemma AdvanceKeepsTransactions(s: Flow, s': Flow, op: Id, dialog: Dialog, now: Time)
    requires Advances(s, s', op, dialog, now) && TransactionsUnique(s) && TransactionFree(s, s', op)
    ensures TransactionsUnique(s')
  {}

  lemma AdvanceKeepsInv(s: Flow, s': Flow, op: Id, dialog: Dialog, now: Time, later: Time, id: Id)
    requires Inv(s, now) && now <= later && Advances(s, s', op, dialog, later) && TransactionFree(s, s', op)
    requires Evolves(s.tables.outbox, s'.tables.outbox) && InboxGrows(s, s', id)
    requires ReserveResolved(s', op, later) && VerifyOk(s', op, later)
    requires forall row | row in s'.tables.outbox && row !in s.tables.outbox :: OutboxRowOk(s', row)
    ensures Inv(s', later) && Continues(s, s')
  {
    AdvanceContinues(s, s', op, dialog, later);
    AdvanceKeepsDialogs(s, s', op, dialog, later);
    AdvanceKeepsUsers(s, s', op, dialog, later);
    AdvanceKeepsProjection(s, s', op, dialog, later);
    AdvanceKeepsTransactions(s, s', op, dialog, later);
    assert ReserveOk(s, op, now);
    ReserveStays(s, s', op, now, later);
    CommandsStay(s, s', op, now, later);
    OutboxRowsStay(s, s');
    InboxStays(s, s', id);
    InvitesStay(s, s');
  }

  // ---- a new attempt begins ----

  ghost predicate Begins(s: Flow, s': Flow, op: Id, now: Time) {
    && op !in s.attempts && op in s'.attempts && s'.attempts == s.attempts[op := s'.attempts[op]]
    && var attempt := s'.attempts[op];
    && var id := attempt.sessionId;
    && id in s.inactive && (s.inactive[id].dialog.NeedsWallet? || s.inactive[id].dialog.DialogRejected?)
    && attempt == NewAttempt(id, attempt.reserveId, attempt.senderWallet, attempt.amount, attempt.network, now)
    && s'.inactive == s.inactive[id := s.inactive[id].(dialog := NeedsReservation, currentAttempt := Some(op),
                      updatedAt := now,
                      version := s.inactive[id].version + 1)]
    && s'.projection == s.projection && s'.invites == s.invites
  }

  lemma BeginKeepsDialogs(s: Flow, s': Flow, op: Id, now: Time)
    requires Begins(s, s', op, now) && AttemptsOk(s) && ConversationsOk(s)
    ensures AttemptsOk(s') && ConversationsOk(s')
  {}

  lemma BeginContinues(s: Flow, s': Flow, op: Id, now: Time)
    requires Begins(s, s', op, now) && ConversationsOk(s)
    ensures AttemptsContinue(s, s') && SessionsContinue(s, s') && InvitesContinue(s, s') && OthersKept(s, s', op)
  {}

  lemma BeginKeepsUsers(s: Flow, s': Flow, op: Id, now: Time)
    requires Begins(s, s', op, now) && UsersUnique(s) && ProjectionOk(s) && TransactionsUnique(s)
    ensures UsersUnique(s') && ProjectionOk(s') && TransactionsUnique(s')
  {
    assert s'.inactive.Keys == s.inactive.Keys;
    assert forall id | id in s.inactive :: SameOwner(s.inactive[id], s'.inactive[id]);
    assert SameActivations(s, s');
    ActivatedStays(s, s');
  }

  lemma BeginKeepsInv(s: Flow, s': Flow, op: Id, now: Time, later: Time)
    requires Inv(s, now) && now <= later && Begins(s, s', op, later)
    requires Evolves(s.tables.outbox, s'.tables.outbox) && s'.tables.inbox == s.tables.inbox && ReserveOk(s', op, later)
    requires forall row | row in s'.tables.outbox && row !in s.tables.outbox :: OutboxRowOk(s', row)
    ensures Inv(s', later) && Continues(s, s')
  {
    BeginContinues(s, s', op, later);
    BeginKeepsDialogs(s, s', op, later);
    BeginKeepsUsers(s, s', op, later);
    CommandsStay(s, s', op, now, later);
    OutboxRowsStay(s, s');
    InboxStays(s, s', 0);
    InvitesStay(s, s');
  }

  // ---- a user binds an invite ----

  ghost predicate Binds(s: Flow, s': Flow, token: string, id: Id) {
    && id !in s.inactive && id !in s.projection && (forall op | op in s.attempts :: s.attempts[op].sessionId != id)
    && token in s.invites && s.invites[token].status.InviteActive?
    && id in s'.inactive && s'.inactive == s.inactive[id := s'.inactive[id]]
    && s'.inactive[id].dialog.NeedsWallet? && s'.inactive[id].currentAttempt.None?
    && s'.inactive[id].balanceId == s.invites[token].balanceId
    && !InInactive(s, s'.inactive[id].botId, s'.inactive[id].userId)
    && !InProjection(s, s'.inactive[id].botId, s'.inactive[id].userId)
    && token in s'.invites && s'.invites == s.invites[token := s'.invites[token]]
    && s'.invites[token] == s.invites[token].(status := InviteConsumed, consumedAt := s'.invites[token].consumedAt,
                            consumedBy := Some(id))
    && s'.projection == s.projection && s'.attempts == s.attempts && s'.tables == s.tables
  }

  lemma BindKeepsDialogs(s: Flow, s': Flow, token: string, id: Id)
    requires Binds(s, s', token, id) && AttemptsOk(s) && ConversationsOk(s)
    ensures AttemptsOk(s') && ConversationsOk(s')
  {}

  lemma BindContinues(s: Flow, s': Flow, token: string, id: Id)
    requires Binds(s, s', token, id) && ConversationsOk(s)
    ensures AttemptsContinue(s, s') && SessionsContinue(s, s') && InvitesContinue(s, s')
  {}

  lemma BindKeepsUsers(s: Flow, s': Flow, token: string, id: Id)
    requires Binds(s, s', token, id) && UsersUnique(s) && ProjectionOk(s)
    ensures UsersUnique(s') && ProjectionOk(s')
  {
    assert SameActivations(s, s');
    ActivatedStays(s, s');
  }

  lemma BindKeepsCommands(s: Flow, s': Flow, token: string, id: Id, now: Time, later: Time)
    requires CommandsOk(s, now) && AttemptsOk(s) && now <= later && Binds(s, s', token, id) && SessionsContinue(s, s')
    ensures CommandsOk(s', later)
  {
    forall o | o in s'.attempts ensures ReserveOk(s', o, later) && VerifyOk(s', o, later) {
      assert ReserveOk(s, o, now) && VerifyOk(s, o, now) && AttemptOk(s, o);
      ReserveStays(s, s', o, now, later);
      VerifyStays(s, s', o, now, later);
    }
  }

  lemma BindKeepsTables(s: Flow, s': Flow, token: string, id: Id)
    requires OutboxRowsOk(s) && InboxOk(s) && TransactionsUnique(s) && InvitesOk(s) && Binds(s, s', token, id)
    requires AttemptsContinue(s, s') && InvitesContinue(s, s')
    ensures OutboxRowsOk(s') && InboxOk(s') && TransactionsUnique(s') && InvitesOk(s')
    ensures InboxContinues(s.tables.inbox, s'.tables.inbox) && Evolves(s.tables.outbox, s'.tables.outbox)
  {
    OutboxRowsStay(s, s');
    InboxStays(s, s', 0);
    InvitesStay(s, s');
  }

  lemma BindKeepsInv(s: Flow, s': Flow, token: string, id: Id, now: Time, later: Time)
    requires Inv(s, now) && now <= later && Binds(s, s', token, id)
    ensures Inv(s', later) && Continues(s, s')
  {
    BindContinues(s, s', token, id);
    BindKeepsDialogs(s, s', token, id);
    BindKeepsUsers(s, s', token, id);
    BindKeepsCommands(s, s', token, id, now, later);
    BindKeepsTables(s, s', token, id);
  }

  // ---- a session becomes active ----

  ghost predicate Completes(s: Flow, s': Flow, op: Id, now: Time) {
    && op in s.attempts && op in s'.attempts && s.attempts[op].status.AwaitingVerification?
    && var id := s.attempts[op].sessionId;
    && id in s.inactive && id !in s.projection && id in s'.projection
    && s'.attempts == s.attempts[op := Close(s.attempts[op], AttemptActive, s.attempts[op].failureCode, now)]
    && s'.inactive == s.inactive - {id}
    && s'.projection == s.projection[id := s'.projection[id]]
    && Projects(s'.projection[id], s.inactive[id]) && s'.projection[id].authorityVersion >= 1
    && s'.invites == ClearConsumer(s.invites, id)
  }

  lemma CompleteKeepsDialogs(s: Flow, s': Flow, op: Id, now: Time)
    requires Completes(s, s', op, now) && AttemptsOk(s) && ConversationsOk(s)
    ensures AttemptsOk(s') && ConversationsOk(s')
  {}

  lemma CompleteContinues(s: Flow, s': Flow, op: Id, now: Time)
    requires Completes(s, s', op, now) && ConversationsOk(s)
    ensures AttemptsContinue(s, s') && SessionsContinue(s, s') && InvitesContinue(s, s') && OthersKept(s, s', op)
  {}

  lemma CompleteKeepsUsers(s: Flow, s': Flow, op: Id, now: Time)
    requires Completes(s, s', op, now) && UsersUnique(s)
    ensures UsersUnique(s')
  {}

  lemma CompleteKeepsProjection(s: Flow, s': Flow, op: Id, now: Time)
    requires Completes(s, s', op, now) && ProjectionOk(s) && AttemptsOk(s)
    ensures ProjectionOk(s')
  {
    var session := s.attempts[op].sessionId;
    forall id: Id, o: Id ensures ActivatedBy(s', id, o) <==> ActivatedBy(s, id, o) || (o == op && id == session) {}
    assert forall o | o in s.attempts :: AttemptOk(s, o);
    assert ActivatedBy(s', session, op);
    forall id | id in s'.projection ensures exists o :: ActivatedBy(s', id, o) {
      if id != session {
        var o :| ActivatedBy(s, id, o);
        assert ActivatedBy(s', id, o);
      }
    }
  }

  lemma CompleteKeepsInv(s: Flow, s': Flow, op: Id, now: Time, later: Time, id: Id)
    requires Inv(s, now) && now <= later && Completes(s, s', op, later)
    requires Evolves(s.tables.outbox, s'.tables.outbox) && s'.tables.outbox.Keys == s.tables.outbox.Keys
    requires InboxGrows(s, s', id)
    requires VerifyResolved(s', op, later)
    ensures Inv(s', later) && Continues(s, s')
  {
    CompleteContinues(s, s', op, later);
    CompleteKeepsDialogs(s, s', op, later);
    CompleteKeepsUsers(s, s', op, later);
    CompleteKeepsProjection(s, s', op, later);
    assert ReserveOk(s, op, now) && VerifyOk(s, op, now) && AttemptOk(s, op);
    ReserveStays(s, s', op, now, later);
    VerifyStays(s, s', op, now, later);
    CommandsStay(s, s', op, now, later);
    OutboxRowsStay(s, s');
    InboxStays(s, s', id);
    InvitesStay(s, s');
    CompleteKeepsTransactions(s, s', op, later);
  }

  lemma CompleteKeepsTransactions(s: Flow, s': Flow, op: Id, now: Time)
    requires Completes(s, s', op, now) && TransactionsUnique(s)
    ensures TransactionsUnique(s')
  {}
}
