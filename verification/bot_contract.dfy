// Producer meets consumer: every verify command of the bot is acceptable to the sessions service while its offer lasts.
module BotContract {
  import opened Base
  import opened Contracts
  import opened Messages
  import opened Bot
  import opened BotInvariant
  import Amount
  import Domain

  // The receiver accepts the command at every moment from `start` until the offer expires, and can store it.
  ghost predicate AlwaysValid(command: ActivationVerify, network: string, start: Time) {
    && Domain.StorableCommand(command)
    && forall t | start <= t < command.offerExpiresAt :: Domain.ValidateActivation(command, network, t)
  }

  ghost predicate VerifyRowsValid(s: Flow, network: string) {
    forall id | id in s.tables.outbox && s.tables.outbox[id].body.VerifyBody? ::
      AlwaysValid(s.tables.outbox[id].body.verify, network, s.tables.outbox[id].createdAt)
  }

  // The command built from stored data is valid whenever its offer is live.
  lemma CommandIsValid(attempt: Attempt, conversation: Conversation, op: Id, network: string, t0: Time, t: Time)
    requires attempt.offer.Some? && attempt.transactionId.Some? && AttemptData(attempt, network, t0)
    requires ConversationData(conversation)
    requires t0 <= t < attempt.offer.value.expiresAt
    ensures Domain.ValidateActivation(VerifyCommand(attempt, attempt.offer.value, conversation, op,
                                                    attempt.transactionId.value, network), network, t)
  {}

  // From the moment the reservation was accepted, at t0, whatever payment follows: the verify command passes the
  // receiver's checks at every moment until the stored offer expires.
  lemma AcceptedReservationLeadsToValidCommand(attempt: Attempt, result: ActivationReserved, conversation: Conversation,
                                               op: Id, transactionId: string, network: string, t0: Time, t: Time)
    requires Domain.ValidateReserved(result, attempt.amount, t0) && Domain.ExternalId(transactionId)
    requires ConversationData(conversation)
    requires Domain.ValidateWallet(attempt.senderWallet) && Amount.ValidAmount(attempt.amount)
    requires var offer := Reserve(attempt, result, t0).offer.value; t0 <= t < offer.expiresAt
    ensures var offer := Reserve(attempt, result, t0).offer.value;
            Domain.ValidateActivation(VerifyCommand(attempt, offer, conversation, op, transactionId, network), network,
                                      t)
  {}

  // A verify row that was just added belongs to an attempt that awaits verification.
  lemma NewVerifyIsAwaited(s: Flow, id: Id, now: Time)
    requires Inv(s, now) && id in s.tables.outbox && s.tables.outbox[id].body.VerifyBody?
    requires s.tables.outbox[id].status.Pending? && now < s.tables.outbox[id].expiresAt
    ensures var command := s.tables.outbox[id].body.verify;
            && command.operationId in s.attempts
            && var a := s.attempts[command.operationId];
            && a.sessionId in s.inactive && a.offer.Some? && a.transactionId.Some?
            && command == VerifyCommand(a, a.offer.value, s.inactive[a.sessionId], command.operationId,
                                        a.transactionId.value, a.network)
  {
    assert OutboxRowOk(s, id);
    var op := s.tables.outbox[id].body.verify.operationId;
    assert VerifyOk(s, op, now) && AttemptOk(s, op);
    LiveVerifyIsAwaited(s, id, op, now);
  }

  lemma LiveVerifyIsAwaited(s: Flow, id: Id, op: Id, now: Time)
    requires op in s.attempts && VerifyOk(s, op, now) && AttemptOk(s, op) && s.attempts[op].verifyId == Some(id)
    requires id in s.tables.outbox && s.tables.outbox[id].status.Pending? && now < s.tables.outbox[id].expiresAt
    ensures var a := s.attempts[op];
            && a.sessionId in s.inactive && a.offer.Some? && a.transactionId.Some?
            && s.tables.outbox[id].body.VerifyBody?
            && s.tables.outbox[id].body.verify
               == VerifyCommand(a, a.offer.value, s.inactive[a.sessionId], op, a.transactionId.value, a.network)
  {}

  lemma NewVerifyIsValid(s: Flow, id: Id, network: string, now: Time)
    requires Inv(s, now) && DataOk(s, network, now) && id in s.tables.outbox && s.tables.outbox[id].body.VerifyBody?
    requires s.tables.outbox[id].status.Pending? && now < s.tables.outbox[id].expiresAt
    ensures AlwaysValid(s.tables.outbox[id].body.verify, network, now)
  {
    NewVerifyIsAwaited(s, id, now);
    var op := s.tables.outbox[id].body.verify.operationId;
    AwaitedIsValid(s, op, s.tables.outbox[id].body.verify, network, now);
  }

  lemma AwaitedIsValid(s: Flow, op: Id, command: ActivationVerify, network: string, now: Time)
    requires op in s.attempts && AttemptData(s.attempts[op], network, now) && s.attempts[op].sessionId in s.inactive
    requires ConversationData(s.inactive[s.attempts[op].sessionId]) && s.attempts[op].offer.Some?
    requires s.attempts[op].transactionId.Some?
    requires var a := s.attempts[op];
             command == VerifyCommand(a, a.offer.value, s.inactive[a.sessionId], op, a.transactionId.value, a.network)
    ensures AlwaysValid(command, network, now)
  {}

  lemma VerifyRowsStayValid(s: Flow, s': Flow, network: string, now: Time)
    requires VerifyRowsValid(s, network) && Evolves(s.tables.outbox, s'.tables.outbox)
    requires AddsPending(s.tables.outbox, s'.tables.outbox, now)
    requires Inv(s', now) && DataOk(s', network, now)
    ensures VerifyRowsValid(s', network)
  {
    forall id | id in s'.tables.outbox && s'.tables.outbox[id].body.VerifyBody?
      ensures AlwaysValid(s'.tables.outbox[id].body.verify, network, s'.tables.outbox[id].createdAt)
    {
      if id in s.tables.outbox { assert RowEvolves(s.tables.outbox[id], s'.tables.outbox[id]); }
      else { NewVerifyIsValid(s', id, network, now); }
    }
  }
}
