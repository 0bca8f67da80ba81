// A verify command whose result is awaited is never confirmed: until it expires the bot goes on sending it.
module BotLive {
  import opened Base
  import opened Contracts
  import opened Messages
  import opened Bot
  import opened BotInvariant
  import opened BotHistory
  import opened BotMachine
  import opened BotData
  import opened BotRuns

  ghost predicate AwaitedAreLive(s: Flow) {
    forall op | op in s.attempts && s.attempts[op].status.AwaitingVerification? && s.attempts[op].verifyId.Some?
                && s.attempts[op].verifyId.value in s.tables.outbox ::
      !s.tables.outbox[s.attempts[op].verifyId.value].status.Confirmed?
  }

  // A verify command is confirmed only when its attempt is closed.
  predicate Answered(s: Flow, row: OutboxRow) {
    row.body.VerifyBody? ==>
      row.body.verify.operationId in s.attempts && !Open(s.attempts[row.body.verify.operationId].status)
  }

  ghost predicate ConfirmsAnswered(s: Flow, s': Flow) {
    forall id | id in s.tables.outbox && id in s'.tables.outbox && s'.tables.outbox[id].status.Confirmed? ::
      s.tables.outbox[id].status.Confirmed? || Answered(s', s.tables.outbox[id])
  }

  lemma ConfirmingOne(s: Flow, s': Flow, id: Id, now: Time)
    requires Confirms(s.tables.outbox, s'.tables.outbox, id, now)
    requires s'.tables.outbox == s.tables.outbox || (id in s.tables.outbox ==> Answered(s', s.tables.outbox[id]))
    ensures ConfirmsAnswered(s, s')
  {}

  lemma ReservedConfirms(s: Flow, t0: Time, now: Time, id: Id, result: ActivationReserved, expiresAt: Time)
    requires CommandsOk(s, t0)
    ensures ConfirmsAnswered(s, ApplyReserved(s, now, id, result, expiresAt).After(s))
  {
    var op, digest := result.operationId, ReservedBody(result);
    var s' := ApplyReserved(s, now, id, result, expiresAt).After(s);
    var r := Receive(s, now, id, digest, expiresAt, op, AwaitingReservation);
    ReservedCases(s, now, id, result, expiresAt);
    if r.Ignored? {
      IgnoredKeepsOutbox(s, now, id, digest, expiresAt, op, AwaitingReservation);
    } else {
      ReceivedShape(s, now, id, digest, expiresAt, op, AwaitingReservation);
      assert ReserveOk(s, op, t0);
      if result.validFrom.Some? && result.expiresAt.Some? {
        MoveOnConfirms(s, r.tables, now, id, op, Reserve(r.attempt, result, now), NeedsPayment,
                       Some(r.attempt.reserveId));
      }
      ConfirmingOne(s, s', r.attempt.reserveId, now);
    }
  }

  lemma ReserveRejectedConfirms(s: Flow, t0: Time, now: Time, id: Id, rejection: Rejection, expiresAt: Time)
    requires CommandsOk(s, t0)
    ensures ConfirmsAnswered(s, ApplyReserveRejected(s, now, id, rejection, expiresAt).After(s))
  {
    var op, digest := rejection.operationId, ReserveRejectedBody(rejection);
    var s' := ApplyReserveRejected(s, now, id, rejection, expiresAt).After(s);
    var r := Receive(s, now, id, digest, expiresAt, op, AwaitingReservation);
    ReserveRejectedCases(s, now, id, rejection, expiresAt);
    if r.Ignored? {
      IgnoredKeepsOutbox(s, now, id, digest, expiresAt, op, AwaitingReservation);
    } else {
      ReceivedShape(s, now, id, digest, expiresAt, op, AwaitingReservation);
      assert ReserveOk(s, op, t0);
      MoveOnConfirms(s, r.tables, now, id, op, Close(r.attempt, AttemptRejected, Some(rejection.code), now),
                     DialogRejected, Some(r.attempt.reserveId));
      ConfirmingOne(s, s', r.attempt.reserveId, now);
    }
  }

  // The row of a verify command names its attempt.
  lemma VerifyRowNames(s: Flow, s': Flow, op: Id, now: Time)
    requires op in s.attempts && VerifyOk(s, op, now) && s.attempts[op].verifyId.Some?
    requires op in s'.attempts && !Open(s'.attempts[op].status)
    ensures var id := s.attempts[op].verifyId.value; id in s.tables.outbox && Answered(s', s.tables.outbox[id])
  {}

  lemma RejectedConfirms(s: Flow, t0: Time, now: Time, id: Id, rejection: Rejection, expiresAt: Time)
    requires CommandsOk(s, t0)
    ensures ConfirmsAnswered(s, CompleteRejected(s, now, id, rejection, expiresAt).After(s))
  {
    var op, digest := rejection.operationId, ActivationRejectedBody(rejection);
    var s' := CompleteRejected(s, now, id, rejection, expiresAt).After(s);
    var r := Receive(s, now, id, digest, expiresAt, op, AwaitingVerification);
    RejectedCases(s, now, id, rejection, expiresAt);
    if r.Ignored? {
      IgnoredKeepsOutbox(s, now, id, digest, expiresAt, op, AwaitingVerification);
    } else if s'.tables.outbox != s.tables.outbox {
      ReceivedShape(s, now, id, digest, expiresAt, op, AwaitingVerification);
      assert VerifyOk(s, op, t0);
      MoveOnConfirms(s, r.tables, now, id, op, Close(r.attempt, AttemptRejected, Some(rejection.code), now),
                     DialogRejected, r.attempt.verifyId);
      if r.attempt.verifyId.Some? {
        VerifyRowNames(s, s', op, t0);
        ConfirmingOne(s, s', r.attempt.verifyId.value, now);
      }
    }
  }

  lemma ActivatedConfirms(s: Flow, t0: Time, now: Time, id: Id, activated: Activated, expiresAt: Time)
    requires CommandsOk(s, t0)
    ensures ConfirmsAnswered(s, CompleteActivated(s, now, id, activated, expiresAt).After(s))
  {
    var op, digest := activated.operationId, ActivatedBody(activated);
    var s' := CompleteActivated(s, now, id, activated, expiresAt).After(s);
    var r := Receive(s, now, id, digest, expiresAt, op, AwaitingVerification);
    ActivatedCases(s, now, id, activated, expiresAt);
    if r.Ignored? {
      IgnoredKeepsOutbox(s, now, id, digest, expiresAt, op, AwaitingVerification);
    } else if s'.tables.outbox != s.tables.outbox {
      ReceivedShape(s, now, id, digest, expiresAt, op, AwaitingVerification);
      assert VerifyOk(s, op, t0);
      ActivateConfirms(s, r.tables, now, id, r.attempt, activated);
      if r.attempt.verifyId.Some? {
        VerifyRowNames(s, s', op, t0);
        ConfirmingOne(s, s', r.attempt.verifyId.value, now);
      }
    }
  }

  // No row that was there becomes confirmed.
  ghost predicate ConfirmsNothing(outbox: map<Id, OutboxRow>, outbox': map<Id, OutboxRow>) {
    forall id | id in outbox && id in outbox' :: outbox'[id].status.Confirmed? ==> outbox[id].status.Confirmed?
  }

  lemma PaymentConfirmsNothing(s: Flow, cfg: Settings, now: Time, id: Id, payment: PaymentConfirmed, expiresAt: Time,
                               verifyId: Id)
    ensures ConfirmsNothing(s.tables.outbox, ApplyPayment(s, cfg, now, id, payment, expiresAt,
                                                          verifyId).After(s).tables.outbox)
  {
    var r := Receive(s, now, id, PaymentBody(payment), expiresAt, payment.operationId, AwaitingPayment);
    if r.Received? {
      ApplyPaymentIsPay(s, cfg, now, id, payment, expiresAt, verifyId);
      PayConfirmsNothing(s, r.tables, cfg, now, id, r.attempt, payment, verifyId);
    } else {
      IgnoredPayment(s, cfg, now, id, payment, expiresAt, verifyId);
      IgnoredKeepsOutbox(s, now, id, PaymentBody(payment), expiresAt, payment.operationId, AwaitingPayment);
    }
  }

  lemma PayConfirmsNothing(s: Flow, t: Tables, cfg: Settings, now: Time, id: Id, attempt: Attempt,
                           payment: PaymentConfirmed, verifyId: Id)
    requires t.outbox == s.tables.outbox
    ensures ConfirmsNothing(s.tables.outbox, Pay(s, t, cfg, now, id, attempt, payment, verifyId).After(s).tables.outbox)
  {}

  lemma OrderConfirmsNothing(s: Flow, cfg: Settings, username: string, now: Time, id: Id, command: InviteCreate,
                             expiresAt: Time, token: string, resultId: Id)
    ensures ConfirmsNothing(s.tables.outbox, HandleInviteCreate(s, cfg, username, now, id, command, expiresAt, token,
                                                                resultId).After(s).tables.outbox)
  {
    var ttl := if command.requestedTtlSeconds != 0 then command.requestedTtlSeconds * SECOND else cfg.inviteTtl;
    CreateInviteCases(s, now, id, command, expiresAt, ttl, token, DeepLink(username, token), resultId);
  }

  lemma WalletConfirmsNothing(s: Flow, cfg: Settings, now: Time, signedAt: Time, found: Option<Id>, wallet: string,
                              minor: nat, op: Id, reserveId: Id)
    ensures ConfirmsNothing(s.tables.outbox, HandleWallet(s, cfg, now, signedAt, found, wallet, minor, op,
                                                          reserveId).After(s).tables.outbox)
  {}

  // The steps that confirm nothing.
  predicate Quiet(step: Step) {
    !step.DeliverReserved? && !step.DeliverReserveRejected? && !step.DeliverActivated? && !step.DeliverRejected?
  }

  lemma QuietConfirmsNothing(s: Flow, cfg: Settings, now: Time, step: Step)
    requires Quiet(step)
    ensures ConfirmsNothing(s.tables.outbox, NextDb(s, cfg, now, step).tables.outbox)
  {
    match step {
      case DeliverInviteCreate(id, command, expiresAt, username, token, resultId) =>
        OrderConfirmsNothing(s, cfg, username, now, id, command, expiresAt, token, resultId);
      case Consume(_, _, _, _, _, _) =>
      case SendWallet(_, _, found, wallet, minor, signedAt, op, reserveId) =>
        WalletConfirmsNothing(s, cfg, now, signedAt, found, wallet, minor, op, reserveId);
      case DeliverPayment(id, payment, expiresAt, verifyId) =>
        PaymentConfirmsNothing(s, cfg, now, id, payment, expiresAt, verifyId);
      case Expire(ops) => ExpireKeepsTables(s, ops, now);
      case Publish(publisher) =>
    }
  }

  lemma StepConfirms(s: Flow, cfg: Settings, t0: Time, now: Time, step: Step)
    requires CommandsOk(s, t0)
    ensures ConfirmsAnswered(s, NextDb(s, cfg, now, step))
  {
    if Quiet(step) {
      QuietConfirmsNothing(s, cfg, now, step);
    } else {
      match step {
        case DeliverReserved(id, reserved, expiresAt) => ReservedConfirms(s, t0, now, id, reserved, expiresAt);
        case DeliverReserveRejected(id, rejection, expiresAt) =>
          ReserveRejectedConfirms(s, t0, now, id, rejection, expiresAt);
        case DeliverActivated(id, activated, expiresAt) => ActivatedConfirms(s, t0, now, id, activated, expiresAt);
        case DeliverRejected(id, rejection, expiresAt) => RejectedConfirms(s, t0, now, id, rejection, expiresAt);
      }
    }
  }

  // One attempt that awaits its result after a step.
  lemma AwaitedStaysLive(s: Flow, s': Flow, later: Time, op: Id)
    requires AwaitedAreLive(s) && ConfirmsAnswered(s, s') && Continues(s, s') && OutboxRowsOk(s) && AttemptsOk(s)
    requires forall id | id in s'.tables.outbox && id !in s.tables.outbox :: !s'.tables.outbox[id].status.Confirmed?
    requires op in s'.attempts && s'.attempts[op].status.AwaitingVerification? && s'.attempts[op].verifyId.Some?
    requires VerifyOk(s', op, later)
    ensures !s'.tables.outbox[s'.attempts[op].verifyId.value].status.Confirmed?
  {
    var id := s'.attempts[op].verifyId.value;
    if id in s.tables.outbox {
      assert OutboxRowOk(s, id) && RowEvolves(s.tables.outbox[id], s'.tables.outbox[id]);
      assert AttemptContinues(s.attempts[op], s'.attempts[op]) && AttemptOk(s, op);
    }
  }

  lemma StepKeepsLive(w: World, move: Move, cfg: Settings)
    requires WorldOk(w, cfg) && Enabled(w, move, cfg) && AwaitedAreLive(w.db)
    ensures AwaitedAreLive(Next(w, move, cfg).db)
  {
    var s' := Next(w, move, cfg).db;
    StepConfirms(w.db, cfg, w.now, move.at, move.step);
    StepKeepsWorld(w, move, cfg);
    StepKeepsRows(w, move, cfg);
    forall op | op in s'.attempts && s'.attempts[op].status.AwaitingVerification? && s'.attempts[op].verifyId.Some?
                && s'.attempts[op].verifyId.value in s'.tables.outbox
      ensures !s'.tables.outbox[s'.attempts[op].verifyId.value].status.Confirmed?
    {
      assert VerifyOk(s', op, move.at);
      AwaitedStaysLive(w.db, s', move.at, op);
    }
  }

  lemma AwaitedRow(s: Flow, op: Id, now: Time)
    requires op in s.attempts && AttemptOk(s, op) && VerifyOk(s, op, now) && AwaitedAreLive(s)
    requires s.attempts[op].status.AwaitingVerification?
    ensures var a := s.attempts[op];
            && a.verifyId.Some? && a.offer.Some? && a.verifyId.value in s.tables.outbox
            && var row := s.tables.outbox[a.verifyId.value];
            && row.expiresAt == TruncateToMicros(a.offer.value.expiresAt + 30 * MINUTE)
            && row.kind.Command? && !row.status.Confirmed?
  {}

  // Until it expires the row can be handed to a publisher from its due time, at most the bound away.
  ghost predicate SentUntilExpiry(row: OutboxRow, now: Time, bound: Time) {
    now < row.expiresAt ==>
      DueAt(row) <= now + bound && forall t | DueAt(row) <= t < row.expiresAt :: Claimable(row, t)
  }

  lemma LiveRowIsSent(row: OutboxRow, now: Time, bound: Time)
    requires RowOk(row, now, bound) && row.kind.Command? && !row.status.Confirmed?
    ensures SentUntilExpiry(row, now, bound)
  {
    if now < row.expiresAt { CommandBecomesClaimable(row, now, bound); }
  }

  // While the bot awaits the result of an attempt it goes on sending its verify command, until half an
  // hour after the offer.
  lemma AwaitedIsSent(w: World, cfg: Settings, op: Id)
    requires WorldOk(w, cfg) && AwaitedAreLive(w.db)
    requires op in w.db.attempts && w.db.attempts[op].status.AwaitingVerification?
    ensures var a := w.db.attempts[op];
            && a.verifyId.Some? && a.offer.Some? && a.verifyId.value in w.db.tables.outbox
            && w.db.tables.outbox[a.verifyId.value].expiresAt
               == TruncateToMicros(a.offer.value.expiresAt + 30 * MINUTE)
            && SentUntilExpiry(w.db.tables.outbox[a.verifyId.value], w.now, cfg.bound)
  {
    assert AttemptOk(w.db, op) && VerifyOk(w.db, op, w.now);
    AwaitedRow(w.db, op, w.now);
    LiveRowIsSent(w.db.tables.outbox[w.db.attempts[op].verifyId.value], w.now, cfg.bound);
  }
}
