// What every reachable database of the bot satisfies.
module BotInvariant {
  import opened Base
  import opened Contracts
  import opened Messages
  import opened Bot
  import Amount
  import Domain
  import Text

  // The attempt status a dialog state stands for.
  function StatusOf(dialog: Dialog): Option<AttemptStatus> {
    match dialog
    case NeedsReservation => Some(AwaitingReservation)
    case NeedsPayment => Some(AwaitingPayment)
    case NeedsVerification => Some(AwaitingVerification)
    case _ => None
  }

  // The attempt is the current one of an existing conversation whose dialog state equals its status.
  predicate Driving(s: Flow, op: Id)
    requires op in s.attempts
  {
    var id := s.attempts[op].sessionId;
    id in s.inactive && s.inactive[id].currentAttempt == Some(op)
    && StatusOf(s.inactive[id].dialog) == Some(s.attempts[op].status)
  }

  // When the reconciler may close an attempt that has got this far.
  function Deadline(attempt: Attempt): Time {
    match attempt.offer
    case None => attempt.createdAt + 2 * MINUTE
    case Some(offer) => if attempt.verifyId.Some? then offer.expiresAt + 30 * MINUTE else offer.expiresAt
  }

  predicate AttemptShape(attempt: Attempt) {
    && (attempt.completedAt.Some? <==> !Open(attempt.status))
    && (attempt.status.AwaitingReservation? ==> attempt.offer.None?)
    && (attempt.status.AwaitingPayment? || attempt.status.AwaitingVerification? || attempt.status.AttemptActive?
        ==> attempt.offer.Some?)
    && (attempt.status.AwaitingReservation? || attempt.status.AwaitingPayment? ==> attempt.verifyId.None?)
    && (attempt.status.AwaitingVerification? || attempt.status.AttemptActive? ==> attempt.verifyId.Some?)
    && (attempt.verifyId.Some? <==> attempt.transactionId.Some?)
    && (attempt.verifyId.Some? ==> attempt.offer.Some?)
    && (attempt.status.AttemptExpired? && attempt.completedAt.Some? ==> Deadline(attempt) <= attempt.completedAt.value)
  }

  // An attempt is open exactly when it drives its conversation.
  predicate AttemptOk(s: Flow, op: Id)
    requires op in s.attempts
  {
    var attempt := s.attempts[op];
    && AttemptShape(attempt)
    && (attempt.sessionId in s.inactive || attempt.sessionId in s.projection)
    && (Open(attempt.status) <==> Driving(s, op))
    && (attempt.status.AttemptActive? ==> attempt.sessionId in s.projection)
  }

  ghost predicate AttemptsOk(s: Flow) {
    forall op | op in s.attempts :: AttemptOk(s, op)
  }

  predicate ConversationOk(s: Flow, id: Id)
    requires id in s.inactive
  {
    var c := s.inactive[id];
    && id !in s.projection
    && (c.currentAttempt.None? <==> c.dialog.NeedsWallet?)
    && (c.currentAttempt.Some? ==>
          var op := c.currentAttempt.value;
          && op in s.attempts && s.attempts[op].sessionId == id
          && (StatusOf(c.dialog).Some? ==> StatusOf(c.dialog) == Some(s.attempts[op].status))
          && (c.dialog.DialogRejected? ==> s.attempts[op].status.AttemptRejected?
                                           || s.attempts[op].status.AttemptExpired?))
  }

  ghost predicate ConversationsOk(s: Flow) {
    forall id | id in s.inactive :: ConversationOk(s, id)
  }

  // Each Telegram user appears at most once across conversations and projection.
  ghost predicate UsersUnique(s: Flow) {
    && (forall a, b | a in s.inactive && b in s.inactive && s.inactive[a].botId == s.inactive[b].botId
                      && s.inactive[a].userId == s.inactive[b].userId :: a == b)
    && (forall a, b | a in s.projection && b in s.projection && s.projection[a].botId == s.projection[b].botId
                      && s.projection[a].userId == s.projection[b].userId :: a == b)
    && (forall a, b | a in s.inactive && b in s.projection :: !(s.inactive[a].botId == s.projection[b].botId
                                                                && s.inactive[a].userId == s.projection[b].userId))
  }

  // The command belongs to the same balance and user as the session, wherever the session is now.
  predicate Owned(s: Flow, sessionId: Id, command: ActivationVerify) {
    && (sessionId in s.inactive ==>
          var c := s.inactive[sessionId];
          c.balanceId == command.balanceId && c.botId == command.botId && c.userId == command.userId
          && c.chatId == command.chatId && c.displayLabel == command.displayLabel)
    && (sessionId in s.projection ==>
          var p := s.projection[sessionId];
          p.balance == Fingerprint(command.balanceId) && p.botId == command.botId && p.userId == command.userId)
  }

  predicate CarriesAttempt(command: ActivationVerify, op: Id, attempt: Attempt) {
    && attempt.offer.Some? && attempt.transactionId.Some?
    && command == ActivationVerify(op, attempt.sessionId, command.balanceId, command.botId, command.userId,
                                   command.chatId,
                                   attempt.senderWallet, attempt.offer.value.receiverWallet, attempt.amount, "USDT",
                                   attempt.network,
                                   attempt.transactionId.value, attempt.offer.value.reservationId,
                                   attempt.offer.value.validFrom,
                                   attempt.offer.value.expiresAt, command.displayLabel)
  }

  // The balance the command was sent for is the one of the session, wherever it is now.
  predicate OwnedBalance(s: Flow, sessionId: Id, balanceId: string) {
    && (sessionId in s.inactive ==> s.inactive[sessionId].balanceId == balanceId)
    && (sessionId in s.projection ==> s.projection[sessionId].balance == Fingerprint(balanceId))
  }

  predicate ReserveOk(s: Flow, op: Id, now: Time)
    requires op in s.attempts
  {
    var attempt := s.attempts[op];
    && attempt.reserveId in s.tables.outbox
    && var row := s.tables.outbox[attempt.reserveId];
    && row.kind.Command? && row.body.ReserveBody? && OwnedBalance(s, attempt.sessionId, row.body.reserve.balanceId)
    && row.body.reserve == ActivationReserve(op, row.body.reserve.balanceId, attempt.sessionId, attempt.senderWallet,
                                             attempt.amount, "USDT", attempt.network)
    && row.createdAt == attempt.createdAt && attempt.createdAt + 2 * MINUTE < row.expiresAt + MICROSECOND
    && (Settled(row) || attempt.status.AwaitingReservation?
        || (attempt.status.AttemptExpired? && attempt.offer.None? && attempt.createdAt + 2 * MINUTE <= now))
  }

  predicate VerifyOk(s: Flow, op: Id, now: Time)
    requires op in s.attempts
  {
    var attempt := s.attempts[op];
    attempt.verifyId.Some? ==>
      && attempt.verifyId.value in s.tables.outbox
      && var row := s.tables.outbox[attempt.verifyId.value];
      && row.kind.Command? && row.body.VerifyBody? && CarriesAttempt(row.body.verify, op, attempt)
      && Owned(s, attempt.sessionId, row.body.verify)
      && row.expiresAt == TruncateToMicros(attempt.offer.value.expiresAt + 30 * MINUTE)
      && (Settled(row) || attempt.status.AwaitingVerification?
          || (attempt.status.AttemptExpired? && row.expiresAt <= now))
  }

  ghost predicate CommandsOk(s: Flow, now: Time) {
    forall op | op in s.attempts :: ReserveOk(s, op, now) && VerifyOk(s, op, now)
  }

  predicate OutboxRowOk(s: Flow, id: Id)
    requires id in s.tables.outbox
  {
    var row := s.tables.outbox[id];
    match row.kind
    case Result => row.body.InviteCreatedBody?
    case Command =>
      match row.body
      case ReserveBody(reserve) => reserve.operationId in s.attempts && s.attempts[reserve.operationId].reserveId == id
      case VerifyBody(command) =>
        command.operationId in s.attempts && s.attempts[command.operationId].verifyId == Some(id)
      case _ => false
  }

  ghost predicate OutboxRowsOk(s: Flow) {
    forall id | id in s.tables.outbox :: OutboxRowOk(s, id)
  }

  // An answer to an order is kept for five minutes.
  predicate IsBriefAnswer(row: OutboxRow) {
    row.kind.Result? && row.expiresAt == TruncateToMicros(row.createdAt + 5 * MINUTE)
  }

  // Handlers never leave a row in PROCESSING, and every handled order has its answer.
  predicate HandledRow(row: InboxRow, outbox: map<Id, OutboxRow>) {
    && !row.status.Processing? && (row.status.Completed? <==> row.resultId.Some?)
    && (row.resultId.Some? ==> row.resultId.value in outbox && IsBriefAnswer(outbox[row.resultId.value]))
    && (row.digest.InviteCreateBody? ==> row.status.Completed?)
  }

  ghost predicate InboxOk(s: Flow) {
    forall id | id in s.tables.inbox :: HandledRow(s.tables.inbox[id], s.tables.outbox)
  }

  ghost predicate TransactionsUnique(s: Flow) {
    forall a, b | a in s.attempts && b in s.attempts && s.attempts[a].transactionId.Some?
                  && s.attempts[a].transactionId == s.attempts[b].transactionId
                  && s.attempts[a].network == s.attempts[b].network :: a == b
  }

  predicate ActivatedBy(s: Flow, id: Id, op: Id) {
    op in s.attempts && s.attempts[op].status.AttemptActive? && s.attempts[op].sessionId == id
  }

  // Every projected session was activated by exactly one attempt.
  ghost predicate ProjectionOk(s: Flow) {
    && (forall id | id in s.projection :: s.projection[id].authorityVersion >= 1 && exists op :: ActivatedBy(s, id, op))
    && (forall id: Id, a: Id, b: Id | ActivatedBy(s, id, a) && ActivatedBy(s, id, b) :: a == b)
  }

  ghost predicate LinksTo(link: string, token: string) {
    exists username: string :: username != "" && link == DeepLink(username, token)
  }

  // The order for an invite was answered with its token, a link to the bot with this token, and its expiry.
  ghost predicate InviteOk(s: Flow, token: string)
    requires token in s.invites
  {
    var invite := s.invites[token];
    && invite.resultId in s.tables.outbox
    && s.tables.outbox[invite.resultId].body.InviteCreatedBody?
    && var answer := s.tables.outbox[invite.resultId].body.inviteCreated;
    && answer == InviteCreated(invite.operationId, token, answer.botDeepLink, answer.expiresAt)
    && invite.expiresAt == TruncateToMicros(answer.expiresAt)
    && LinksTo(answer.botDeepLink, token)
    && invite.commandId in s.tables.inbox && s.tables.inbox[invite.commandId].status.Completed?
    && s.tables.inbox[invite.commandId].resultId == Some(invite.resultId)
  }

  ghost predicate InvitesOk(s: Flow) {
    && (forall token | token in s.invites :: InviteOk(s, token))
    && (forall a, b | a in s.invites && b in s.invites
                      && s.invites[a].operationId == s.invites[b].operationId :: a == b)
  }

  ghost predicate Inv(s: Flow, now: Time) {
    && AttemptsOk(s) && ConversationsOk(s) && UsersUnique(s) && ProjectionOk(s) && CommandsOk(s, now)
    && OutboxRowsOk(s) && InboxOk(s) && TransactionsUnique(s) && InvitesOk(s)
  }

  // ---- data that reaches the sessions service ----

  predicate ConversationData(c: Conversation) {
    && c.botId > 0 && c.userId > 0 && c.chatId > 0 && 1 <= |c.balanceId| <= 256
    && |c.displayLabel| <= 128 && Text.Storable(c.displayLabel)
  }

  predicate OfferData(offer: Offer, now: Time) {
    && Domain.ValidateWallet(offer.receiverWallet) && Domain.ExternalId(offer.reservationId)
    && Text.Storable(offer.reservationId)
    && offer.validFrom <= now + 2 * MINUTE && MINUTE <= offer.expiresAt - offer.validFrom <= HOUR
  }

  predicate AttemptData(attempt: Attempt, network: string, now: Time) {
    && Domain.ValidateWallet(attempt.senderWallet) && Amount.ValidAmount(attempt.amount) && attempt.network == network
    && (attempt.offer.Some? ==> OfferData(attempt.offer.value, now))
    && (attempt.transactionId.Some? ==> Domain.ExternalId(attempt.transactionId.value)
                                        && Text.Storable(attempt.transactionId.value))
  }

  predicate InviteData(invite: Invite) {
    1 <= |invite.balanceId| <= 256
  }

  ghost predicate DataOk(s: Flow, network: string, now: Time) {
    && (forall token | token in s.invites :: InviteData(s.invites[token]))
    && (forall id | id in s.inactive :: ConversationData(s.inactive[id]))
    && (forall op | op in s.attempts :: AttemptData(s.attempts[op], network, now))
  }

  lemma EmptyInv(network: string)
    ensures Inv(EMPTY, 0) && DataOk(EMPTY, network, 0)
  {}
}
