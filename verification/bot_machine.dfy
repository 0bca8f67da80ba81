// The transactions of the bot keep its invariant, and none of its impossible branches is reached.
module BotMachine {
  import opened Base
  import opened Contracts
  import opened Messages
  import opened Bot
  import opened BotInvariant
  import opened BotHistory
  import opened BotSteps

  ghost predicate Good(s: Flow, s': Flow, later: Time) {
    Inv(s', later) && Continues(s, s')
  }

  // ---- messages that change nothing ----

  lemma IgnoredShape(s: Flow, now: Time, id: Id, digest: Body, expiresAt: Time, op: Id, expected: AttemptStatus)
    requires Receive(s, now, id, digest, expiresAt, op, expected).Ignored? && !digest.InviteCreateBody?
    ensures var s' := Receive(s, now, id, digest, expiresAt, op, expected).tx.After(s);
            s' == s.(tables := s.tables.(inbox := s'.tables.inbox)) && InboxGrows(s, s', id)
  {}

  lemma IgnoredKeepsInv(s: Flow, now: Time, later: Time, id: Id, digest: Body, expiresAt: Time, op: Id,
                        expected: AttemptStatus)
    requires Inv(s, now) && now <= later
    requires Receive(s, later, id, digest, expiresAt, op, expected).Ignored? && !digest.InviteCreateBody?
    ensures Good(s, Receive(s, later, id, digest, expiresAt, op, expected).tx.After(s), later)
  {
    IgnoredShape(s, later, id, digest, expiresAt, op, expected);
    TablesChangeKeepsInv(s, Receive(s, later, id, digest, expiresAt, op, expected).tx.After(s), id, now, later);
  }

  // The message was registered, is being processed, and nothing else happened yet.
  ghost predicate Entered(s: Flow, t: Tables, id: Id) {
    && id !in s.tables.inbox && IsProcessing(t, id) && t.inbox[id].resultId.None?
    && t.inbox == s.tables.inbox[id := t.inbox[id]]
  }

  // A message that is not an order for an invite.
  ghost predicate Registered(s: Flow, t: Tables, id: Id) {
    Entered(s, t, id) && !t.inbox[id].digest.InviteCreateBody?
  }

  lemma ReceivedShape(s: Flow, now: Time, id: Id, digest: Body, expiresAt: Time, op: Id, expected: AttemptStatus)
    requires Receive(s, now, id, digest, expiresAt, op, expected).Received? && !digest.InviteCreateBody?
    ensures var r := Receive(s, now, id, digest, expiresAt, op, expected);
            && Registered(s, r.tables, id) && r.tables.outbox == s.tables.outbox
            && op in s.attempts && r.attempt == s.attempts[op] && r.attempt.status == expected
  {}

  // ---- an attempt moves on ----

  // AcknowledgeInbox and the update of the dialog never fail.
  lemma MoveOnAdvances(s: Flow, t: Tables, now: Time, id: Id, op: Id, attempt': Attempt, dialog: Dialog,
                       confirm: Option<Id>)
    requires Registered(s, t, id) && op in s.attempts && Open(s.attempts[op].status) && AttemptOk(s, op)
    requires AttemptContinues(s.attempts[op], attempt') && AttemptShape(attempt') && Fits(dialog, attempt'.status)
    ensures var tx := MoveOn(s, t, now, id, op, attempt', dialog, confirm);
            && tx.Commit? && Advances(s, tx.state, op, dialog, now) && tx.state.attempts[op] == attempt'
            && InboxGrows(s, tx.state, id)
            && tx.state.tables.outbox == if confirm.Some? then Confirm(t, confirm.value, now).outbox else t.outbox
  {}

  lemma ConfirmSettles(t: Tables, id: Id, now: Time)
    ensures Evolves(t.outbox, Confirm(t, id, now).outbox) && Confirm(t, id, now).outbox.Keys == t.outbox.Keys
    ensures id in t.outbox ==> Settled(Confirm(t, id, now).outbox[id])
  {}

  // A reservation is answered: its command is confirmed.
  lemma AnswerReserve(s: Flow, t: Tables, now: Time, later: Time, id: Id, op: Id, attempt': Attempt, dialog: Dialog)
    requires Inv(s, now) && now <= later && Registered(s, t, id) && t.outbox == s.tables.outbox
    requires op in s.attempts && s.attempts[op].status.AwaitingReservation?
    requires AttemptContinues(s.attempts[op], attempt')
    requires AttemptShape(attempt') && Fits(dialog, attempt'.status) && attempt'.verifyId.None?
    requires attempt'.transactionId.None?
    ensures var tx := MoveOn(s, t, later, id, op, attempt', dialog, Some(attempt'.reserveId));
            tx.Commit? && Good(s, tx.state, later)
  {
    assert AttemptOk(s, op);
    MoveOnAdvances(s, t, later, id, op, attempt', dialog, Some(attempt'.reserveId));
    ConfirmSettles(t, attempt'.reserveId, later);
    var s' := MoveOn(s, t, later, id, op, attempt', dialog, Some(attempt'.reserveId)).state;
    AdvanceKeepsInv(s, s', op, dialog, now, later, id);
  }

  lemma ReserveMovesOn(attempt: Attempt, result: ActivationReserved, now: Time)
    requires attempt.status.AwaitingReservation? && AttemptShape(attempt) && result.validFrom.Some?
    requires result.expiresAt.Some?
    ensures var a := Reserve(attempt, result, now);
            && AttemptContinues(attempt, a) && AttemptShape(a) && Fits(NeedsPayment, a.status)
            && a.verifyId.None? && a.transactionId.None? && a.reserveId == attempt.reserveId
  {}

  lemma ReservedShape(s: Flow, now: Time, id: Id, result: ActivationReserved, expiresAt: Time)
    requires Receive(s, now, id, ReservedBody(result), expiresAt, result.operationId, AwaitingReservation).Received?
    ensures var r := Receive(s, now, id, ReservedBody(result), expiresAt, result.operationId, AwaitingReservation);
            ApplyReserved(s, now, id, result, expiresAt) ==
            if !ReservationAccepted(result, r.attempt.amount, now) then Rollback
            else MoveOn(s, r.tables, now, id, result.operationId, Reserve(r.attempt, result, now), NeedsPayment,
                        Some(r.attempt.reserveId))
  {}

  lemma ReservedCases(s: Flow, now: Time, id: Id, result: ActivationReserved, expiresAt: Time)
    ensures var s' := ApplyReserved(s, now, id, result, expiresAt).After(s);
            match Receive(s, now, id, ReservedBody(result), expiresAt, result.operationId, AwaitingReservation)
            case Ignored(tx) => s' == tx.After(s)
            case Received(t, a) =>
              || s' == s
              || (result.validFrom.Some? && result.expiresAt.Some?
                  && s' == MoveOn(s, t, now, id, result.operationId, Reserve(a, result, now), NeedsPayment,
                                  Some(a.reserveId)).After(s))
  {}

  lemma ReservedKeepsInv(s: Flow, now: Time, later: Time, id: Id, result: ActivationReserved, expiresAt: Time)
    requires Inv(s, now) && now <= later
    ensures Good(s, ApplyReserved(s, later, id, result, expiresAt).After(s), later)
  {
    var op, digest := result.operationId, ReservedBody(result);
    var r := Receive(s, later, id, digest, expiresAt, op, AwaitingReservation);
    if r.Ignored? {
      IgnoredKeepsInv(s, now, later, id, digest, expiresAt, op, AwaitingReservation);
    } else {
      ReservedShape(s, later, id, result, expiresAt);
      if ReservationAccepted(result, r.attempt.amount, later) {
        ReceivedShape(s, later, id, digest, expiresAt, op, AwaitingReservation);
        AcceptedKeepsInv(s, r.tables, now, later, id, op, result);
      } else {
        TimePassesInv(s, now, later);
      }
    }
  }

  lemma AcceptedKeepsInv(s: Flow, t: Tables, now: Time, later: Time, id: Id, op: Id, result: ActivationReserved)
    requires Inv(s, now) && now <= later && Registered(s, t, id) && t.outbox == s.tables.outbox
    requires op in s.attempts && s.attempts[op].status.AwaitingReservation?
    requires result.validFrom.Some? && result.expiresAt.Some?
    ensures var tx := MoveOn(s, t, later, id, op, Reserve(s.attempts[op], result, later), NeedsPayment,
                             Some(s.attempts[op].reserveId));
            tx.Commit? && Good(s, tx.state, later)
  {
    assert AttemptOk(s, op);
    ReserveMovesOn(s.attempts[op], result, later);
    AnswerReserve(s, t, now, later, id, op, Reserve(s.attempts[op], result, later), NeedsPayment);
  }

  lemma ReserveRejectedCases(s: Flow, now: Time, id: Id, rejection: Rejection, expiresAt: Time)
    ensures var r := Receive(s, now, id, ReserveRejectedBody(rejection), expiresAt, rejection.operationId,
                             AwaitingReservation);
            var s' := ApplyReserveRejected(s, now, id, rejection, expiresAt).After(s);
            match r
            case Ignored(tx) => s' == tx.After(s)
            case Received(t, a) =>
              || s' == s
              || s' == MoveOn(s, t, now, id, rejection.operationId,
                              Close(a, AttemptRejected, Some(rejection.code), now), DialogRejected,
                              Some(a.reserveId)).After(s)
  {}

  lemma ReserveRejectedKeepsInv(s: Flow, now: Time, later: Time, id: Id, rejection: Rejection, expiresAt: Time)
    requires Inv(s, now) && now <= later
    ensures Good(s, ApplyReserveRejected(s, later, id, rejection, expiresAt).After(s), later)
  {
    var op, digest := rejection.operationId, ReserveRejectedBody(rejection);
    ReserveRejectedCases(s, later, id, rejection, expiresAt);
    var r := Receive(s, later, id, digest, expiresAt, op, AwaitingReservation);
    if r.Ignored? {
      IgnoredKeepsInv(s, now, later, id, digest, expiresAt, op, AwaitingReservation);
    } else {
      ReceivedShape(s, later, id, digest, expiresAt, op, AwaitingReservation);
      assert AttemptOk(s, op);
      TimePassesInv(s, now, later);
      AnswerReserve(s, r.tables, now, later, id, op, Close(r.attempt, AttemptRejected, Some(rejection.code), later),
                    DialogRejected);
    }
  }

  // ---- payment ----

  // The verify command a payment leads to, as it enters the outbox.
  function VerifyRow(s: Flow, op: Id, transactionId: string, network: string, now: Time): OutboxRow
    requires op in s.attempts && s.attempts[op].offer.Some? && s.attempts[op].sessionId in s.inactive
  {
    var attempt := s.attempts[op];
    NewRow(VerifyBody(VerifyCommand(attempt, attempt.offer.value, s.inactive[attempt.sessionId], op, transactionId,
                                    network)),
           Command, now, attempt.offer.value.expiresAt + 30 * MINUTE)
  }

  // What a payment asks of the state it meets.
  predicate Payable(s: Flow, op: Id, transactionId: string) {
    && op in s.attempts && s.attempts[op].status.AwaitingPayment? && s.attempts[op].offer.Some?
    && s.attempts[op].sessionId in s.inactive && !TransactionTaken(s, op, s.attempts[op].network, transactionId)
  }

  lemma FactsAbout(s: Flow, op: Id, now: Time)
    requires Inv(s, now) && op in s.attempts && s.attempts[op].sessionId in s.inactive
    ensures AttemptOk(s, op) && ConversationOk(s, s.attempts[op].sessionId) && ReserveOk(s, op, now)
  {}

  lemma PayKeepsInv(s: Flow, t: Tables, now: Time, later: Time, id: Id, op: Id, verifyId: Id, transactionId: string)
    requires Inv(s, now) && now <= later && Registered(s, t, id) && verifyId !in s.tables.outbox
    requires Payable(s, op, transactionId)
    requires t.outbox == s.tables.outbox[verifyId := VerifyRow(s, op, transactionId, s.attempts[op].network, later)]
    ensures var tx := MoveOn(s, t, later, id, op, Paid(s.attempts[op], verifyId, transactionId, later),
                             NeedsVerification, None);
            tx.Commit? && Good(s, tx.state, later)
  {
    FactsAbout(s, op, now);
    PayAdvances(s, t, now, later, id, op, verifyId, transactionId);
    var s' := MoveOn(s, t, later, id, op, Paid(s.attempts[op], verifyId, transactionId, later), NeedsVerification,
                     None).state;
    InsertedEvolves(s.tables.outbox, verifyId, t.outbox[verifyId]);
    AdvanceKeepsInv(s, s', op, NeedsVerification, now, later, id);
  }

  lemma InsertedEvolves(rows: map<Id, OutboxRow>, id: Id, row: OutboxRow)
    requires id !in rows
    ensures Evolves(rows, rows[id := row])
  {}

  lemma PayAdvances(s: Flow, t: Tables, now: Time, later: Time, id: Id, op: Id, verifyId: Id, transactionId: string)
    requires Registered(s, t, id) && verifyId !in s.tables.outbox && Payable(s, op, transactionId)
    requires AttemptOk(s, op) && ConversationOk(s, s.attempts[op].sessionId) && ReserveOk(s, op, now)
    requires t.outbox == s.tables.outbox[verifyId := VerifyRow(s, op, transactionId, s.attempts[op].network, later)]
    ensures var tx := MoveOn(s, t, later, id, op, Paid(s.attempts[op], verifyId, transactionId, later),
                             NeedsVerification, None);
            && tx.Commit? && Advances(s, tx.state, op, NeedsVerification, later) && InboxGrows(s, tx.state, id)
            && tx.state.tables.outbox == t.outbox && TransactionFree(s, tx.state, op)
            && ReserveResolved(tx.state, op, later) && VerifyOk(tx.state, op, later) && OutboxRowOk(tx.state, verifyId)
  {}

  lemma PayNeeds(s: Flow, t: Tables, cfg: Settings, now: Time, id: Id, op: Id, payment: PaymentConfirmed, verifyId: Id)
    requires op in s.attempts && payment.operationId == op && s.attempts[op].status.AwaitingPayment?
    requires Pay(s, t, cfg, now, id, s.attempts[op], payment, verifyId).Commit?
    ensures PaymentTaken(s, s.attempts[op], payment, now) && Payable(s, op, payment.transactionId)
  {}

  lemma VerifyInserted(s: Flow, t: Tables, cfg: Settings, now: Time, op: Id, transactionId: string, verifyId: Id)
    requires op in s.attempts && s.attempts[op].offer.Some? && s.attempts[op].sessionId in s.inactive
    requires verifyId !in t.outbox
    ensures var inserted := InsertVerify(t, cfg, now, op, s.attempts[op], s.attempts[op].offer.value,
                                         s.inactive[s.attempts[op].sessionId], transactionId, verifyId);
            inserted.Commit? ==>
              inserted.state == Tables(t.inbox, t.outbox[verifyId := VerifyRow(s, op, transactionId, cfg.network, now)])
  {}

  lemma ApplyPaymentIsPay(s: Flow, cfg: Settings, now: Time, id: Id, payment: PaymentConfirmed, expiresAt: Time,
                          verifyId: Id)
    requires Receive(s, now, id, PaymentBody(payment), expiresAt, payment.operationId, AwaitingPayment).Received?
    ensures var r := Receive(s, now, id, PaymentBody(payment), expiresAt, payment.operationId, AwaitingPayment);
            ApplyPayment(s, cfg, now, id, payment, expiresAt, verifyId)
            == Pay(s, r.tables, cfg, now, id, r.attempt, payment, verifyId)
  {}

  lemma IgnoredPayment(s: Flow, cfg: Settings, now: Time, id: Id, payment: PaymentConfirmed, expiresAt: Time,
                       verifyId: Id)
    requires Receive(s, now, id, PaymentBody(payment), expiresAt, payment.operationId, AwaitingPayment).Ignored?
    ensures var s' := ApplyPayment(s, cfg, now, id, payment, expiresAt, verifyId).After(s);
            s' == s || s' == Receive(s, now, id, PaymentBody(payment), expiresAt, payment.operationId,
                                     AwaitingPayment).tx.After(s)
  {}

  lemma IgnoredPaymentKeepsInv(s: Flow, cfg: Settings, now: Time, later: Time, id: Id, payment: PaymentConfirmed,
                               expiresAt: Time, verifyId: Id)
    requires Inv(s, now) && now <= later
    requires Receive(s, later, id, PaymentBody(payment), expiresAt, payment.operationId, AwaitingPayment).Ignored?
    ensures Good(s, ApplyPayment(s, cfg, later, id, payment, expiresAt, verifyId).After(s), later)
  {
    IgnoredPayment(s, cfg, later, id, payment, expiresAt, verifyId);
    TimePassesInv(s, now, later);
    IgnoredKeepsInv(s, now, later, id, PaymentBody(payment), expiresAt, payment.operationId, AwaitingPayment);
  }

  lemma PaymentKeepsInv(s: Flow, cfg: Settings, now: Time, later: Time, id: Id, payment: PaymentConfirmed,
                        expiresAt: Time, verifyId: Id)
    requires Inv(s, now) && now <= later && verifyId !in s.tables.outbox
    requires payment.operationId in s.attempts ==> s.attempts[payment.operationId].network == cfg.network
    ensures Good(s, ApplyPayment(s, cfg, later, id, payment, expiresAt, verifyId).After(s), later)
  {
    var op, digest := payment.operationId, PaymentBody(payment);
    var r := Receive(s, later, id, digest, expiresAt, op, AwaitingPayment);
    if r.Ignored? {
      IgnoredPaymentKeepsInv(s, cfg, now, later, id, payment, expiresAt, verifyId);
    } else {
      ReceivedShape(s, later, id, digest, expiresAt, op, AwaitingPayment);
      ApplyPaymentIsPay(s, cfg, later, id, payment, expiresAt, verifyId);
      FreshPaymentKeepsInv(s, r.tables, cfg, now, later, id, payment, verifyId);
    }
  }

  lemma FreshPaymentKeepsInv(s: Flow, t: Tables, cfg: Settings, now: Time, later: Time, id: Id,
                             payment: PaymentConfirmed, verifyId: Id)
    requires Inv(s, now) && now <= later && verifyId !in s.tables.outbox && Registered(s, t, id)
    requires t.outbox == s.tables.outbox
    requires payment.operationId in s.attempts && s.attempts[payment.operationId].network == cfg.network
    requires s.attempts[payment.operationId].status.AwaitingPayment?
    ensures Good(s, Pay(s, t, cfg, later, id, s.attempts[payment.operationId], payment, verifyId).After(s), later)
  {
    var op := payment.operationId;
    TimePassesInv(s, now, later);
    if Pay(s, t, cfg, later, id, s.attempts[op], payment, verifyId).Commit? {
      PayNeeds(s, t, cfg, later, id, op, payment, verifyId);
      VerifyInserted(s, t, cfg, later, op, payment.transactionId, verifyId);
      var t1 := t.(outbox := t.outbox[verifyId := VerifyRow(s, op, payment.transactionId, cfg.network, later)]);
      PayKeepsInv(s, t1, now, later, id, op, verifyId, payment.transactionId);
    }
  }

  // ---- completion ----

  // The ON CONFLICT arm and the unique index of the projection are never reached.
  lemma ProjectInserts(s: Flow, sessionId: Id, row: ActiveRow)
    requires ConversationsOk(s) && UsersUnique(s) && sessionId in s.inactive && row.authorityVersion >= 1
    requires row.botId == s.inactive[sessionId].botId && row.userId == s.inactive[sessionId].userId
    ensures sessionId !in s.projection
    ensures Project(s.projection, sessionId, row) == Commit(s.projection[sessionId := row])
  {}

  lemma CompletedShape(s: Flow, now: Time, id: Id, activated: Activated, expiresAt: Time)
    requires ConversationsOk(s) && UsersUnique(s) && activated.operationId in s.attempts
    requires AttemptOk(s, activated.operationId)
    requires Receive(s, now, id, ActivatedBody(activated), expiresAt, activated.operationId,
                     AwaitingVerification).Received?
    requires s.attempts[activated.operationId].sessionId in s.inactive && activated.authorityVersion >= 1
    requires ValidActivated(activated, s.attempts[activated.operationId].sessionId,
                            s.inactive[s.attempts[activated.operationId].sessionId])
    ensures var tx := CompleteActivated(s, now, id, activated, expiresAt);
            var a := s.attempts[activated.operationId];
            && tx.Commit? && Completes(s, tx.state, activated.operationId, now) && InboxGrows(s, tx.state, id)
            && a.verifyId.Some? && tx.state.tables.outbox == Confirm(s.tables, a.verifyId.value, now).outbox
            && tx.state.projection[a.sessionId].authorityVersion == activated.authorityVersion
  {
    var op := activated.operationId;
    ReceivedShape(s, now, id, ActivatedBody(activated), expiresAt, op, AwaitingVerification);
    var c := s.inactive[s.attempts[op].sessionId];
    ProjectInserts(s, s.attempts[op].sessionId,
                   ActiveRow(c.botId, c.userId, c.chatId, Fingerprint(c.balanceId), c.displayLabel,
                             activated.authorityVersion, TruncateToMicros(activated.activatedAt.value)));
  }

  // A valid result for an awaiting attempt is always applied.
  predicate Completable(s: Flow, activated: Activated) {
    && activated.operationId in s.attempts && s.attempts[activated.operationId].sessionId in s.inactive
    && activated.authorityVersion >= 1
    && ValidActivated(activated, s.attempts[activated.operationId].sessionId,
                      s.inactive[s.attempts[activated.operationId].sessionId])
  }

  lemma ActivatedKeepsInv(s: Flow, now: Time, later: Time, id: Id, activated: Activated, expiresAt: Time)
    requires Inv(s, now) && now <= later
    ensures Good(s, CompleteActivated(s, later, id, activated, expiresAt).After(s), later)
  {
    var op, digest := activated.operationId, ActivatedBody(activated);
    TimePassesInv(s, now, later);
    match Receive(s, later, id, digest, expiresAt, op, AwaitingVerification) {
      case Ignored(_) => IgnoredKeepsInv(s, now, later, id, digest, expiresAt, op, AwaitingVerification);
      case Received(t, attempt) =>
        ReceivedShape(s, later, id, digest, expiresAt, op, AwaitingVerification);
        if Completable(s, activated) {
          assert AttemptOk(s, op);
          CompletedShape(s, later, id, activated, expiresAt);
          var s' := CompleteActivated(s, later, id, activated, expiresAt).state;
          ConfirmSettles(s.tables, attempt.verifyId.value, later);
          CompleteKeepsInv(s, s', op, now, later, id);
        } else {
          NotCompletable(s, later, id, activated, expiresAt);
        }
    }
  }

  lemma NotCompletable(s: Flow, now: Time, id: Id, activated: Activated, expiresAt: Time)
    requires Receive(s, now, id, ActivatedBody(activated), expiresAt, activated.operationId,
                     AwaitingVerification).Received?
    requires !Completable(s, activated)
    ensures CompleteActivated(s, now, id, activated, expiresAt).Rollback?
  {}

  lemma RejectedCases(s: Flow, now: Time, id: Id, rejection: Rejection, expiresAt: Time)
    ensures var r := Receive(s, now, id, ActivationRejectedBody(rejection), expiresAt, rejection.operationId,
                             AwaitingVerification);
            var s' := CompleteRejected(s, now, id, rejection, expiresAt).After(s);
            match r
            case Ignored(tx) => s' == tx.After(s)
            case Received(t, a) =>
              || s' == s
              || s' == MoveOn(s, t, now, id, rejection.operationId,
                              Close(a, AttemptRejected, Some(rejection.code), now), DialogRejected,
                              a.verifyId).After(s)
  {}

  lemma RejectedKeepsInv(s: Flow, now: Time, later: Time, id: Id, rejection: Rejection, expiresAt: Time)
    requires Inv(s, now) && now <= later
    ensures Good(s, CompleteRejected(s, later, id, rejection, expiresAt).After(s), later)
  {
    var op, digest := rejection.operationId, ActivationRejectedBody(rejection);
    RejectedCases(s, later, id, rejection, expiresAt);
    var r := Receive(s, later, id, digest, expiresAt, op, AwaitingVerification);
    if r.Ignored? {
      IgnoredKeepsInv(s, now, later, id, digest, expiresAt, op, AwaitingVerification);
    } else {
      ReceivedShape(s, later, id, digest, expiresAt, op, AwaitingVerification);
      assert AttemptOk(s, op);
      TimePassesInv(s, now, later);
      AnswerVerify(s, r.tables, now, later, id, op, Close(r.attempt, AttemptRejected, Some(rejection.code), later));
    }
  }

  lemma AnswerVerify(s: Flow, t: Tables, now: Time, later: Time, id: Id, op: Id, attempt': Attempt)
    requires Inv(s, now) && now <= later && Registered(s, t, id) && t.outbox == s.tables.outbox
    requires op in s.attempts && s.attempts[op].status.AwaitingVerification?
    requires AttemptContinues(s.attempts[op], attempt')
    requires AttemptShape(attempt') && attempt'.status.AttemptRejected?
    ensures var tx := MoveOn(s, t, later, id, op, attempt', DialogRejected, attempt'.verifyId);
            tx.Commit? && Good(s, tx.state, later)
  {
    assert AttemptOk(s, op) && ReserveOk(s, op, now) && VerifyOk(s, op, now);
    MoveOnAdvances(s, t, later, id, op, attempt', DialogRejected, attempt'.verifyId);
    ConfirmSettles(t, attempt'.verifyId.value, later);
    var s' := MoveOn(s, t, later, id, op, attempt', DialogRejected, attempt'.verifyId).state;
    AdvanceContinues(s, s', op, DialogRejected, later);
    VerifyStays(s, s', op, now, later);
    AdvanceKeepsInv(s, s', op, DialogRejected, now, later, id);
  }

  // ---- expiry ----

  lemma ExpiryAdvances(s: Flow, op: Id, now: Time)
    requires Overdue(s, op, now) && AttemptOk(s, op)
    ensures Advances(s, ExpireOne(s, op, now), op, DialogRejected, now)
  {}

  lemma ExpiryResolves(s: Flow, op: Id, now: Time, later: Time)
    requires Overdue(s, op, later) && now <= later && AttemptOk(s, op) && ReserveOk(s, op, now) && VerifyOk(s, op, now)
    ensures ReserveResolved(ExpireOne(s, op, later), op, later) && VerifyResolved(ExpireOne(s, op, later), op, later)
  {}

  lemma ExpireOneKeepsInv(s: Flow, op: Id, now: Time, later: Time)
    requires Inv(s, now) && now <= later
    ensures Good(s, ExpireOne(s, op, later), later)
  {
    TimePassesInv(s, now, later);
    if Overdue(s, op, later) {
      assert AttemptOk(s, op) && ReserveOk(s, op, now) && VerifyOk(s, op, now);
      var s' := ExpireOne(s, op, later);
      ExpiryAdvances(s, op, later);
      ExpiryResolves(s, op, now, later);
      AdvanceContinues(s, s', op, DialogRejected, later);
      VerifyStays(s, s', op, now, later);
      AdvanceKeepsInv(s, s', op, DialogRejected, now, later, 0);
    }
  }

  lemma {:induction false} ExpireKeepsInv(s: Flow, ops: seq<Id>, now: Time, later: Time)
    requires Inv(s, now) && now <= later
    ensures Good(s, ExpireAttempts(s, ops, later), later)
    decreases |ops|
  {
    if ops == [] {
      TimePassesInv(s, now, later);
    } else {
      var s' := ExpireOne(s, ops[0], later);
      ExpireOneKeepsInv(s, ops[0], now, later);
      ExpireKeepsInv(s', ops[1..], later, later);
      ContinuesTransitive(s, s', ExpireAttempts(s', ops[1..], later));
    }
  }

  // ---- invites and new attempts ----

  ghost predicate InviteShape(s: Flow, s': Flow, id: Id, token: string) {
    && OnlyTables(s, s') && InvitesContinue(s, s') && (s'.invites == s.invites || AddsInvite(s, s', token))
    && Evolves(s.tables.outbox, s'.tables.outbox) && InboxGrows(s, s', id)
    && forall row | row in s'.tables.outbox && row !in s.tables.outbox ::
         s'.tables.outbox[row].kind.Result? && s'.tables.outbox[row].body.InviteCreatedBody?
  }

  lemma AddInviteShape(s: Flow, t: Tables, now: Time, id: Id, command: InviteCreate, ttl: Time, token: string,
                       link: string, resultId: Id)
    requires Entered(s, t, id) && t.outbox == s.tables.outbox && resultId !in s.tables.outbox && LinksTo(link, token)
    requires AddInvite(s, t, now, id, command, ttl, token, link, resultId).Commit?
    ensures InviteShape(s, AddInvite(s, t, now, id, command, ttl, token, link, resultId).state, id, token)
  {}

  lemma ReplayShape(s: Flow, r: InboxResult, now: Time, id: Id, token: string)
    requires r.Duplicate?
    ensures InviteShape(s, s.(tables := Replay(s.tables, r, now)), id, token)
  {}

  lemma InviteCreateShape(s: Flow, now: Time, id: Id, command: InviteCreate, expiresAt: Time, ttl: Time, token: string,
                          link: string, resultId: Id)
    requires resultId !in s.tables.outbox && LinksTo(link, token)
    ensures InviteShape(s, CreateInvite(s, now, id, command, expiresAt, ttl, token, link, resultId).After(s), id, token)
  {
    var (t, r) := Register(s.tables, id, InviteCreateBody(command), expiresAt);
    if r.Duplicate? { ReplayShape(s, r, now, id, token); }
    if r.Accepted? && AddInvite(s, t, now, id, command, ttl, token, link, resultId).Commit? {
      AddInviteShape(s, t, now, id, command, ttl, token, link, resultId);
    }
  }

  lemma InviteCreateKeepsInv(s: Flow, now: Time, later: Time, id: Id, command: InviteCreate, expiresAt: Time, ttl: Time,
                             token: string, link: string, resultId: Id)
    requires Inv(s, now) && now <= later && resultId !in s.tables.outbox && LinksTo(link, token)
    ensures Good(s, CreateInvite(s, later, id, command, expiresAt, ttl, token, link, resultId).After(s), later)
  {
    var s' := CreateInvite(s, later, id, command, expiresAt, ttl, token, link, resultId).After(s);
    InviteCreateShape(s, later, id, command, expiresAt, ttl, token, link, resultId);
    ShapeKeepsInv(s, s', id, token, now, later);
  }

  lemma ShapeKeepsInv(s: Flow, s': Flow, id: Id, token: string, now: Time, later: Time)
    requires Inv(s, now) && now <= later && InviteShape(s, s', id, token)
    ensures Good(s, s', later)
  {
    if s'.invites != s.invites {
      InboxStays(s, s', id);
      InvitesGrow(s, s', token);
    }
    TablesChangeKeepsInv(s, s', id, now, later);
  }

  ghost predicate FreshSession(s: Flow, sessionId: Id) {
    && sessionId !in s.inactive && sessionId !in s.projection
    && (forall op | op in s.attempts :: s.attempts[op].sessionId != sessionId)
  }

  lemma ConsumeKeepsInv(s: Flow, now: Time, later: Time, botId: int, userId: int, chatId: int, displayLabel: string,
                        token: string, sessionId: Id)
    requires Inv(s, now) && now <= later && FreshSession(s, sessionId)
    ensures Good(s, ConsumeInvite(s, later, botId, userId, chatId, displayLabel, token, sessionId).After(s), later)
  {
    var s' := ConsumeInvite(s, later, botId, userId, chatId, displayLabel, token, sessionId).After(s);
    TimePassesInv(s, now, later);
    if s' != s {
      BindKeepsInv(s, s', token, sessionId, now, later);
    }
  }

  lemma BeginShape(s: Flow, now: Time, signedAt: Time, found: Option<Id>, wallet: string, amount: string,
                   network: string, op: Id, reserveId: Id)
    requires now <= signedAt && op !in s.attempts && reserveId !in s.tables.outbox
    requires BeginActivation(s, now, signedAt, found, wallet, amount, network, op, reserveId).Commit?
    ensures var s' := BeginActivation(s, now, signedAt, found, wallet, amount, network, op, reserveId).state;
            && Begins(s, s', op, now) && s'.attempts[op].reserveId == reserveId && reserveId in s'.tables.outbox
            && s'.tables.outbox == s.tables.outbox[reserveId := s'.tables.outbox[reserveId]]
            && s'.tables.inbox == s.tables.inbox
            && var row := s'.tables.outbox[reserveId];
            && row.kind.Command? && row.body.ReserveBody?
            && row.body.reserve == ActivationReserve(op, s.inactive[s'.attempts[op].sessionId].balanceId,
                                                     s'.attempts[op].sessionId, wallet, amount, "USDT", network)
            && s'.attempts[op].senderWallet == wallet && s'.attempts[op].amount == amount
            && s'.attempts[op].network == network
            && row.createdAt == now && row.expiresAt == TruncateToMicros(signedAt + 2 * MINUTE)
  {}

  lemma BeginActivationKeepsInv(s: Flow, now: Time, later: Time, signedAt: Time, found: Option<Id>, wallet: string,
                                amount: string, network: string, op: Id, reserveId: Id)
    requires Inv(s, now) && now <= later <= signedAt && op !in s.attempts && reserveId !in s.tables.outbox
    ensures Good(s, BeginActivation(s, later, signedAt, found, wallet, amount, network, op, reserveId).After(s), later)
  {
    TimePassesInv(s, now, later);
    var tx := BeginActivation(s, later, signedAt, found, wallet, amount, network, op, reserveId);
    if tx.Commit? {
      BeginShape(s, later, signedAt, found, wallet, amount, network, op, reserveId);
      BeginKeepsInv(s, tx.state, op, now, later);
    }
  }
}
