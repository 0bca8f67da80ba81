// What the bot stores stays fit to be sent, and its outbox rows stay due.
module BotData {
  import opened Base
  import opened Contracts
  import opened Messages
  import opened Bot
  import opened BotInvariant
  import opened BotHistory
  import opened BotMachine
  import Amount
  import Domain

  // ---- stored data ----

  predicate SameTerms(a: Attempt, a': Attempt) {
    && a'.senderWallet == a.senderWallet && a'.amount == a.amount && a'.network == a.network
    && a'.offer == a.offer && a'.transactionId == a.transactionId
  }

  // Every row but the attempt `op` is as good as the row it comes from.
  ghost predicate KeptBut(s: Flow, s': Flow, op: Id) {
    && (forall token | token in s'.invites :: token in s.invites
                                              && s'.invites[token].balanceId == s.invites[token].balanceId)
    && (forall id | id in s'.inactive :: id in s.inactive && SameOwner(s.inactive[id], s'.inactive[id]))
    && (forall o | o in s'.attempts && o != op :: o in s.attempts && SameTerms(s.attempts[o], s'.attempts[o]))
  }

  lemma DataStays(s: Flow, s': Flow, op: Id, network: string, now: Time, later: Time)
    requires DataOk(s, network, now) && now <= later && KeptBut(s, s', op)
    requires op in s'.attempts ==> AttemptData(s'.attempts[op], network, later)
    ensures DataOk(s', network, later)
  {}

  lemma AttemptDataStays(a: Attempt, a': Attempt, network: string, now: Time, later: Time)
    requires AttemptData(a, network, now) && SameTerms(a, a') && now <= later
    ensures AttemptData(a', network, later)
  {}

  lemma TimePassesData(s: Flow, network: string, now: Time, later: Time)
    requires DataOk(s, network, now) && now <= later
    ensures DataOk(s, network, later)
  {}

  // Moving on to good data keeps the data good.
  lemma MoveOnKeepsData(s: Flow, t: Tables, network: string, now: Time, id: Id, op: Id, attempt': Attempt,
                        dialog: Dialog, confirm: Option<Id>)
    requires DataOk(s, network, now) && AttemptData(attempt', network, now)
    ensures DataOk(MoveOn(s, t, now, id, op, attempt', dialog, confirm).After(s), network, now)
  {}

  lemma ReservedAttemptData(attempt: Attempt, result: ActivationReserved, network: string, now: Time)
    requires AttemptData(attempt, network, now) && ReservationAccepted(result, attempt.amount, now)
    ensures AttemptData(Reserve(attempt, result, now), network, now)
  {}

  lemma IgnoredKeepsData(s: Flow, network: string, now: Time, id: Id, digest: Body, expiresAt: Time, op: Id,
                         expected: AttemptStatus)
    requires DataOk(s, network, now) && Receive(s, now, id, digest, expiresAt, op, expected).Ignored?
    ensures DataOk(Receive(s, now, id, digest, expiresAt, op, expected).tx.After(s), network, now)
  {}

  lemma ReservedKeepsData(s: Flow, network: string, now: Time, id: Id, result: ActivationReserved, expiresAt: Time)
    requires DataOk(s, network, now)
    ensures DataOk(ApplyReserved(s, now, id, result, expiresAt).After(s), network, now)
  {
    var op, digest := result.operationId, ReservedBody(result);
    var r := Receive(s, now, id, digest, expiresAt, op, AwaitingReservation);
    if r.Ignored? {
      IgnoredKeepsData(s, network, now, id, digest, expiresAt, op, AwaitingReservation);
    } else {
      ReservedShape(s, now, id, result, expiresAt);
      ReceivedShape(s, now, id, digest, expiresAt, op, AwaitingReservation);
      if ReservationAccepted(result, r.attempt.amount, now) {
        ReservedAttemptData(r.attempt, result, network, now);
        MoveOnKeepsData(s, r.tables, network, now, id, op, Reserve(r.attempt, result, now), NeedsPayment,
                        Some(r.attempt.reserveId));
      }
    }
  }

  lemma ClosedAttemptData(attempt: Attempt, status: AttemptStatus, code: Option<string>, network: string, now: Time)
    requires AttemptData(attempt, network, now)
    ensures AttemptData(Close(attempt, status, code, now), network, now)
  {}

  lemma ReserveRejectedKeepsData(s: Flow, network: string, now: Time, id: Id, rejection: Rejection, expiresAt: Time)
    requires DataOk(s, network, now)
    ensures DataOk(ApplyReserveRejected(s, now, id, rejection, expiresAt).After(s), network, now)
  {
    var r := Receive(s, now, id, ReserveRejectedBody(rejection), expiresAt, rejection.operationId, AwaitingReservation);
    if r.Received? {
      ClosedAttemptData(r.attempt, AttemptRejected, Some(rejection.code), network, now);
      MoveOnKeepsData(s, r.tables, network, now, id, rejection.operationId,
                      Close(r.attempt, AttemptRejected, Some(rejection.code), now),
                      DialogRejected, Some(r.attempt.reserveId));
    }
  }

  lemma RejectedKeepsData(s: Flow, network: string, now: Time, id: Id, rejection: Rejection, expiresAt: Time)
    requires DataOk(s, network, now)
    ensures DataOk(CompleteRejected(s, now, id, rejection, expiresAt).After(s), network, now)
  {
    var r := Receive(s, now, id, ActivationRejectedBody(rejection), expiresAt, rejection.operationId,
                     AwaitingVerification);
    if r.Received? {
      ClosedAttemptData(r.attempt, AttemptRejected, Some(rejection.code), network, now);
      MoveOnKeepsData(s, r.tables, network, now, id, rejection.operationId,
                      Close(r.attempt, AttemptRejected, Some(rejection.code), now),
                      DialogRejected, r.attempt.verifyId);
    }
  }

  lemma PayKeepsData(s: Flow, t: Tables, cfg: Settings, now: Time, id: Id, payment: PaymentConfirmed, verifyId: Id)
    requires DataOk(s, cfg.network, now) && payment.operationId in s.attempts
    ensures DataOk(Pay(s, t, cfg, now, id, s.attempts[payment.operationId], payment, verifyId).After(s), cfg.network,
                   now)
  {}

  lemma PaymentKeepsData(s: Flow, cfg: Settings, now: Time, id: Id, payment: PaymentConfirmed, expiresAt: Time,
                         verifyId: Id)
    requires DataOk(s, cfg.network, now)
    ensures DataOk(ApplyPayment(s, cfg, now, id, payment, expiresAt, verifyId).After(s), cfg.network, now)
  {
    var r := Receive(s, now, id, PaymentBody(payment), expiresAt, payment.operationId, AwaitingPayment);
    if r.Received? {
      ApplyPaymentIsPay(s, cfg, now, id, payment, expiresAt, verifyId);
      ReceivedShape(s, now, id, PaymentBody(payment), expiresAt, payment.operationId, AwaitingPayment);
      PayKeepsData(s, r.tables, cfg, now, id, payment, verifyId);
    } else {
      IgnoredPayment(s, cfg, now, id, payment, expiresAt, verifyId);
      IgnoredKeepsData(s, cfg.network, now, id, PaymentBody(payment), expiresAt, payment.operationId, AwaitingPayment);
    }
  }

  lemma ActivatedCases(s: Flow, now: Time, id: Id, activated: Activated, expiresAt: Time)
    ensures var s' := CompleteActivated(s, now, id, activated, expiresAt).After(s);
            match Receive(s, now, id, ActivatedBody(activated), expiresAt, activated.operationId, AwaitingVerification)
            case Ignored(tx) => s' == tx.After(s)
            case Received(t, a) => s' == Activate(s, t, now, id, a, activated).After(s)
  {}

  lemma ActivateKeeps(s: Flow, t: Tables, now: Time, id: Id, op: Id, activated: Activated)
    requires op in s.attempts && activated.operationId == op
    ensures var s' := Activate(s, t, now, id, s.attempts[op], activated).After(s);
            KeptBut(s, s', op) && op in s'.attempts && SameTerms(s.attempts[op], s'.attempts[op])
  {}

  lemma ActivatedKeeps(s: Flow, now: Time, id: Id, activated: Activated, expiresAt: Time)
    ensures var s' := CompleteActivated(s, now, id, activated, expiresAt).After(s);
            && KeptBut(s, s', activated.operationId)
            && (activated.operationId in s'.attempts ==>
                  activated.operationId in s.attempts
                  && SameTerms(s.attempts[activated.operationId], s'.attempts[activated.operationId]))
  {
    var op, digest := activated.operationId, ActivatedBody(activated);
    var r := Receive(s, now, id, digest, expiresAt, op, AwaitingVerification);
    ActivatedCases(s, now, id, activated, expiresAt);
    if r.Received? {
      ReceivedShape(s, now, id, digest, expiresAt, op, AwaitingVerification);
      ActivateKeeps(s, r.tables, now, id, op, activated);
    }
  }

  lemma ActivatedKeepsData(s: Flow, network: string, now: Time, id: Id, activated: Activated, expiresAt: Time)
    requires DataOk(s, network, now)
    ensures DataOk(CompleteActivated(s, now, id, activated, expiresAt).After(s), network, now)
  {
    var s' := CompleteActivated(s, now, id, activated, expiresAt).After(s);
    ActivatedKeeps(s, now, id, activated, expiresAt);
    if activated.operationId in s'.attempts {
      AttemptDataStays(s.attempts[activated.operationId], s'.attempts[activated.operationId], network, now, now);
    }
    DataStays(s, s', activated.operationId, network, now, now);
  }

  lemma ExpireOneKeepsData(s: Flow, op: Id, network: string, now: Time)
    requires DataOk(s, network, now)
    ensures DataOk(ExpireOne(s, op, now), network, now)
  {}

  lemma {:induction false} ExpireKeepsData(s: Flow, ops: seq<Id>, network: string, now: Time)
    requires DataOk(s, network, now)
    ensures DataOk(ExpireAttempts(s, ops, now), network, now)
    decreases |ops|
  {
    if ops != [] {
      ExpireOneKeepsData(s, ops[0], network, now);
      ExpireKeepsData(ExpireOne(s, ops[0], now), ops[1..], network, now);
    }
  }

  lemma ConsumeKeepsData(s: Flow, network: string, now: Time, botId: int, userId: int, chatId: int,
                         displayLabel: string, token: string, sessionId: Id)
    requires DataOk(s, network, now)
    ensures DataOk(ConsumeInvite(s, now, botId, userId, chatId, displayLabel, token, sessionId).After(s), network, now)
  {}

  lemma BeginKeepsData(s: Flow, network: string, now: Time, signedAt: Time, found: Option<Id>, wallet: string,
                       amount: string, op: Id, reserveId: Id)
    requires DataOk(s, network, now) && Domain.ValidateWallet(wallet) && Amount.ValidAmount(amount)
    ensures DataOk(BeginActivation(s, now, signedAt, found, wallet, amount, network, op, reserveId).After(s), network,
                   now)
  {}

  // ---- rows of the outbox ----

  predicate IsCommand(outbox: map<Id, OutboxRow>, id: Option<Id>) {
    id.Some? && id.value in outbox ==> outbox[id.value].kind.Command?
  }

  // What attempts have sent are commands.
  ghost predicate SentAreCommands(s: Flow) {
    forall op | op in s.attempts ::
      && IsCommand(s.tables.outbox, Some(s.attempts[op].reserveId))
      && IsCommand(s.tables.outbox, s.attempts[op].verifyId)
  }

  lemma CommandsAreSent(s: Flow, now: Time)
    requires CommandsOk(s, now)
    ensures SentAreCommands(s)
  {
    forall op | op in s.attempts
      ensures IsCommand(s.tables.outbox, Some(s.attempts[op].reserveId))
              && IsCommand(s.tables.outbox, s.attempts[op].verifyId)
    {
      assert ReserveOk(s, op, now) && VerifyOk(s, op, now);
    }
  }

  // A change of the outbox that confirms at most one row.
  ghost predicate Confirms(outbox: map<Id, OutboxRow>, outbox': map<Id, OutboxRow>, id: Id, now: Time) {
    outbox' == outbox || outbox' == Confirm(Tables(map[], outbox), id, now).outbox
  }

  lemma ConfirmingKeepsRows(outbox: map<Id, OutboxRow>, outbox': map<Id, OutboxRow>, id: Id, now: Time, bound: Time)
    requires OutboxOk(outbox, now, bound) && Confirms(outbox, outbox', id, now)
    requires outbox' == outbox || (id in outbox ==> outbox[id].kind.Command?)
    ensures RowsStep(outbox, outbox', now, bound)
  {
    if outbox' != outbox { ConfirmKeepsRows(Tables(map[], outbox), id, now, bound); }
  }

  lemma MoveOnConfirms(s: Flow, t: Tables, now: Time, id: Id, op: Id, attempt': Attempt, dialog: Dialog,
                       confirm: Option<Id>)
    requires t.outbox == s.tables.outbox
    ensures var s' := MoveOn(s, t, now, id, op, attempt', dialog, confirm).After(s);
            Confirms(s.tables.outbox, s'.tables.outbox, if confirm.Some? then confirm.value else 0, now)
  {}

  lemma IgnoredKeepsOutbox(s: Flow, now: Time, id: Id, digest: Body, expiresAt: Time, op: Id, expected: AttemptStatus)
    requires Receive(s, now, id, digest, expiresAt, op, expected).Ignored?
    ensures Receive(s, now, id, digest, expiresAt, op, expected).tx.After(s).tables.outbox == s.tables.outbox
  {}

  lemma ReservedKeepsRows(s: Flow, now: Time, id: Id, result: ActivationReserved, expiresAt: Time, bound: Time)
    requires OutboxOk(s.tables.outbox, now, bound) && SentAreCommands(s)
    ensures RowsStep(s.tables.outbox, ApplyReserved(s, now, id, result, expiresAt).After(s).tables.outbox, now, bound)
  {
    var op, digest := result.operationId, ReservedBody(result);
    var s' := ApplyReserved(s, now, id, result, expiresAt).After(s);
    var r := Receive(s, now, id, digest, expiresAt, op, AwaitingReservation);
    ReservedCases(s, now, id, result, expiresAt);
    if r.Ignored? {
      IgnoredKeepsOutbox(s, now, id, digest, expiresAt, op, AwaitingReservation);
      ConfirmingKeepsRows(s.tables.outbox, s'.tables.outbox, 0, now, bound);
    } else {
      ReceivedShape(s, now, id, digest, expiresAt, op, AwaitingReservation);
      if result.validFrom.Some? && result.expiresAt.Some? {
        MoveOnConfirms(s, r.tables, now, id, op, Reserve(r.attempt, result, now), NeedsPayment,
                       Some(r.attempt.reserveId));
      }
      ConfirmingKeepsRows(s.tables.outbox, s'.tables.outbox, r.attempt.reserveId, now, bound);
    }
  }

  lemma ReserveRejectedKeepsRows(s: Flow, now: Time, id: Id, rejection: Rejection, expiresAt: Time, bound: Time)
    requires OutboxOk(s.tables.outbox, now, bound) && SentAreCommands(s)
    ensures RowsStep(s.tables.outbox, ApplyReserveRejected(s, now, id, rejection, expiresAt).After(s).tables.outbox,
                     now, bound)
  {
    var op, digest := rejection.operationId, ReserveRejectedBody(rejection);
    var s' := ApplyReserveRejected(s, now, id, rejection, expiresAt).After(s);
    var r := Receive(s, now, id, digest, expiresAt, op, AwaitingReservation);
    ReserveRejectedCases(s, now, id, rejection, expiresAt);
    if r.Ignored? {
      IgnoredKeepsOutbox(s, now, id, digest, expiresAt, op, AwaitingReservation);
      ConfirmingKeepsRows(s.tables.outbox, s'.tables.outbox, 0, now, bound);
    } else {
      ReceivedShape(s, now, id, digest, expiresAt, op, AwaitingReservation);
      MoveOnConfirms(s, r.tables, now, id, op, Close(r.attempt, AttemptRejected, Some(rejection.code), now),
                     DialogRejected, Some(r.attempt.reserveId));
      ConfirmingKeepsRows(s.tables.outbox, s'.tables.outbox, r.attempt.reserveId, now, bound);
    }
  }

  lemma RejectedKeepsRows(s: Flow, now: Time, id: Id, rejection: Rejection, expiresAt: Time, bound: Time)
    requires OutboxOk(s.tables.outbox, now, bound) && SentAreCommands(s)
    ensures RowsStep(s.tables.outbox, CompleteRejected(s, now, id, rejection, expiresAt).After(s).tables.outbox, now,
                     bound)
  {
    var op, digest := rejection.operationId, ActivationRejectedBody(rejection);
    var s' := CompleteRejected(s, now, id, rejection, expiresAt).After(s);
    var r := Receive(s, now, id, digest, expiresAt, op, AwaitingVerification);
    RejectedCases(s, now, id, rejection, expiresAt);
    if r.Ignored? {
      IgnoredKeepsOutbox(s, now, id, digest, expiresAt, op, AwaitingVerification);
      ConfirmingKeepsRows(s.tables.outbox, s'.tables.outbox, 0, now, bound);
    } else {
      ReceivedShape(s, now, id, digest, expiresAt, op, AwaitingVerification);
      MoveOnConfirms(s, r.tables, now, id, op, Close(r.attempt, AttemptRejected, Some(rejection.code), now),
                     DialogRejected, r.attempt.verifyId);
      ConfirmingKeepsRows(s.tables.outbox, s'.tables.outbox,
                          if r.attempt.verifyId.Some? then r.attempt.verifyId.value else 0, now, bound);
    }
  }

  lemma PayKeepsRows(s: Flow, t: Tables, cfg: Settings, now: Time, id: Id, attempt: Attempt, payment: PaymentConfirmed,
                     verifyId: Id)
    requires OutboxOk(s.tables.outbox, now, cfg.bound) && t.outbox == s.tables.outbox && 0 <= cfg.bound
    ensures RowsStep(s.tables.outbox, Pay(s, t, cfg, now, id, attempt, payment, verifyId).After(s).tables.outbox, now,
                     cfg.bound)
  {}

  lemma PaymentKeepsRows(s: Flow, cfg: Settings, now: Time, id: Id, payment: PaymentConfirmed, expiresAt: Time,
                         verifyId: Id)
    requires OutboxOk(s.tables.outbox, now, cfg.bound) && 0 <= cfg.bound
    ensures RowsStep(s.tables.outbox, ApplyPayment(s, cfg, now, id, payment, expiresAt,
                                                   verifyId).After(s).tables.outbox, now, cfg.bound)
  {
    var r := Receive(s, now, id, PaymentBody(payment), expiresAt, payment.operationId, AwaitingPayment);
    if r.Received? { PayKeepsRows(s, r.tables, cfg, now, id, r.attempt, payment, verifyId); }
  }

  lemma ActivateConfirms(s: Flow, t: Tables, now: Time, id: Id, attempt: Attempt, activated: Activated)
    requires t.outbox == s.tables.outbox
    ensures var s' := Activate(s, t, now, id, attempt, activated).After(s);
            Confirms(s.tables.outbox, s'.tables.outbox,
                     if attempt.verifyId.Some? then attempt.verifyId.value else 0, now)
  {}

  lemma ActivatedKeepsRows(s: Flow, now: Time, id: Id, activated: Activated, expiresAt: Time, bound: Time)
    requires OutboxOk(s.tables.outbox, now, bound) && SentAreCommands(s)
    ensures RowsStep(s.tables.outbox, CompleteActivated(s, now, id, activated, expiresAt).After(s).tables.outbox, now,
                     bound)
  {
    var op, digest := activated.operationId, ActivatedBody(activated);
    var s' := CompleteActivated(s, now, id, activated, expiresAt).After(s);
    var r := Receive(s, now, id, digest, expiresAt, op, AwaitingVerification);
    ActivatedCases(s, now, id, activated, expiresAt);
    if r.Ignored? {
      IgnoredKeepsOutbox(s, now, id, digest, expiresAt, op, AwaitingVerification);
      ConfirmingKeepsRows(s.tables.outbox, s'.tables.outbox, 0, now, bound);
    } else {
      ReceivedShape(s, now, id, digest, expiresAt, op, AwaitingVerification);
      ActivateConfirms(s, r.tables, now, id, r.attempt, activated);
      ConfirmingKeepsRows(s.tables.outbox, s'.tables.outbox,
                          if r.attempt.verifyId.Some? then r.attempt.verifyId.value else 0, now, bound);
    }
  }

  lemma {:induction false} ExpireKeepsTables(s: Flow, ops: seq<Id>, now: Time)
    ensures ExpireAttempts(s, ops, now).tables == s.tables && ExpireAttempts(s, ops, now).invites == s.invites
    decreases |ops|
  {
    if ops != [] { ExpireKeepsTables(ExpireOne(s, ops[0], now), ops[1..], now); }
  }

  lemma AddInviteKeepsRows(s: Flow, t: Tables, now: Time, id: Id, command: InviteCreate, ttl: Time, token: string,
                           link: string, resultId: Id, bound: Time)
    requires OutboxOk(s.tables.outbox, now, bound) && 0 <= bound && t.outbox == s.tables.outbox
    ensures RowsStep(s.tables.outbox,
                     AddInvite(s, t, now, id, command, ttl, token, link, resultId).After(s).tables.outbox, now, bound)
  {
    var body := InviteCreatedBody(InviteCreated(command.operationId, token, link, now + ttl));
    if Insert(t, resultId, body, Result, now, now + 5 * MINUTE).Commit? {
      InsertKeepsRows(t, resultId, body, Result, now, now + 5 * MINUTE, bound);
    }
  }

  lemma CreateInviteCases(s: Flow, now: Time, id: Id, command: InviteCreate, expiresAt: Time, ttl: Time, token: string,
                          link: string, resultId: Id)
    ensures var s' := CreateInvite(s, now, id, command, expiresAt, ttl, token, link, resultId).After(s);
            var (t, r) := Register(s.tables, id, InviteCreateBody(command), expiresAt);
            match r
            case Collision => s' == s
            case Duplicate(_, _) => s' == s.(tables := Replay(s.tables, r, now))
            case Accepted => s' == AddInvite(s, t, now, id, command, ttl, token, link, resultId).After(s)
  {}

  lemma CreateInviteKeepsRows(s: Flow, now: Time, id: Id, command: InviteCreate, expiresAt: Time, ttl: Time,
                              token: string, link: string, resultId: Id, bound: Time)
    requires OutboxOk(s.tables.outbox, now, bound) && 0 <= bound
    ensures RowsStep(s.tables.outbox, CreateInvite(s, now, id, command, expiresAt, ttl, token, link,
                                                   resultId).After(s).tables.outbox, now, bound)
  {
    var (t, r) := Register(s.tables, id, InviteCreateBody(command), expiresAt);
    CreateInviteCases(s, now, id, command, expiresAt, ttl, token, link, resultId);
    match r {
      case Collision =>
      case Duplicate(completed, resultId) =>
        if completed && resultId.Some? { RequeueKeepsRows(s.tables, resultId.value, now, bound); }
      case Accepted => AddInviteKeepsRows(s, t, now, id, command, ttl, token, link, resultId, bound);
    }
  }

  lemma BeginKeepsRows(s: Flow, network: string, now: Time, signedAt: Time, found: Option<Id>, wallet: string,
                       amount: string, op: Id, reserveId: Id, bound: Time)
    requires OutboxOk(s.tables.outbox, now, bound) && 0 <= bound
    ensures RowsStep(s.tables.outbox, BeginActivation(s, now, signedAt, found, wallet, amount, network, op,
                                                      reserveId).After(s).tables.outbox, now, bound)
  {}
}
