// Payloads exchanged by rw-bot, rw-active-sessions and the external rw-topup. A timestamp of an external producer is
// None when it does not parse.
module Contracts {
  import opened Base

  datatype InviteCreate = InviteCreate(operationId: Id, balanceId: string, requestedTtlSeconds: int)
  datatype InviteCreated = InviteCreated(operationId: Id, invite: string, botDeepLink: string, expiresAt: Time)

  datatype ActivationReserve = ActivationReserve(
    operationId: Id, balanceId: string, sessionId: Id, senderWallet: string,
    verificationAmount: string, asset: string, network: string)

  datatype ActivationReserved = ActivationReserved(
    operationId: Id, reservationId: string, receiverWallet: string, amount: string,
    validFrom: Option<Time>, expiresAt: Option<Time>)

  datatype PaymentConfirmed = PaymentConfirmed(
    operationId: Id, reservationId: string, transactionId: string, senderWallet: string,
    receiverWallet: string, amount: string, observedAt: Option<Time>)

  datatype ActivationVerify = ActivationVerify(
    operationId: Id, sessionId: Id, balanceId: string, botId: int, userId: int, chatId: int,
    senderWallet: string, receiverWallet: string, amount: string, asset: string, network: string,
    transactionId: string, reservationId: string, offerValidFrom: Time, offerExpiresAt: Time,
    displayLabel: string)

  datatype TopupVerify = TopupVerify(
    operationId: Id, transactionId: string, reservationId: string, senderWallet: string,
    receiverWallet: string, amount: string, asset: string, network: string)

  datatype TopupVerified = TopupVerified(
    operationId: Id, transactionId: string, reservationId: string, senderWallet: string,
    receiverWallet: string, amount: string, asset: string, network: string, finalizedAt: Option<Time>)

  datatype Rejection = Rejection(operationId: Id, code: string, retryable: bool)

  datatype Activated = Activated(
    operationId: Id, sessionId: Id, balanceId: string, status: string, authorityVersion: int,
    activatedAt: Option<Time>)

  datatype Body =
    | InviteCreateBody(inviteCreate: InviteCreate)
    | InviteCreatedBody(inviteCreated: InviteCreated)
    | ReserveBody(reserve: ActivationReserve)
    | ReservedBody(reserved: ActivationReserved)
    | ReserveRejectedBody(reserveRejected: Rejection)
    | PaymentBody(payment: PaymentConfirmed)
    | VerifyBody(verify: ActivationVerify)
    | TopupVerifyBody(topupVerify: TopupVerify)
    | TopupVerifiedBody(topupVerified: TopupVerified)
    | TopupRejectedBody(topupRejected: Rejection)
    | ActivatedBody(activated: Activated)
    | ActivationRejectedBody(activationRejected: Rejection)

  // A signed message on the wire; its id, body and expiry never change.
  datatype Envelope = Envelope(id: Id, body: Body, expiresAt: Time)
}

// Validators of the two services.
module Domain {
  import opened Base
  import opened Text
  import opened Contracts
  import Amount

  predicate PrintableAscii(s: string) {
    forall i | 0 <= i < |s| :: 0x21 <= s[i] as int <= 0x7E
  }

  // Bot side: also refuses surrounding white space.
  predicate ValidateWallet(value: string) {
    16 <= |value| <= 128 && Trimmed(value) && PrintableAscii(value)
  }

  // Sessions side.
  predicate ValidWallet(value: string) {
    16 <= |value| <= 128 && PrintableAscii(value)
  }

  predicate ExternalId(value: string) {
    1 <= |value| <= 256 && Trimmed(value)
  }

  predicate ValidateInviteCreate(command: InviteCreate) {
    && Trimmed(command.balanceId) && 1 <= |command.balanceId| <= 256
    && (command.requestedTtlSeconds != 0 ==> 300 <= command.requestedTtlSeconds <= 604800)
  }

  predicate OfferWindow(validFrom: Time, expiresAt: Time, now: Time) {
    && validFrom <= now + 2 * MINUTE
    && now < expiresAt && validFrom < expiresAt
    && MINUTE <= expiresAt - validFrom <= HOUR
  }

  predicate ValidateReserved(result: ActivationReserved, expectedAmount: string, now: Time) {
    && result.amount == expectedAmount && ExternalId(result.reservationId) && ValidateWallet(result.receiverWallet)
    && result.validFrom.Some? && result.expiresAt.Some?
    && OfferWindow(result.validFrom.value, result.expiresAt.value, now)
  }

  predicate ValidatePayment(result: PaymentConfirmed, expected: PaymentConfirmed, offerExpiresAt: Time, now: Time) {
    && result.operationId == expected.operationId && result.reservationId == expected.reservationId
    && result.senderWallet == expected.senderWallet && result.receiverWallet == expected.receiverWallet
    && result.amount == expected.amount && ExternalId(result.transactionId)
    && result.observedAt.Some? && result.observedAt.value <= offerExpiresAt
    && result.observedAt.value <= now + 2 * MINUTE
  }

  predicate ValidateActivation(command: ActivationVerify, configuredNetwork: string, now: Time) {
    && command.botId > 0 && command.userId > 0 && command.chatId > 0
    && 1 <= |command.balanceId| <= 256 && command.asset == "USDT" && command.network == configuredNetwork
    && ValidWallet(command.senderWallet) && ValidWallet(command.receiverWallet)
    && ExternalId(command.transactionId) && ExternalId(command.reservationId)
    && Amount.ValidAmount(command.amount) && |command.displayLabel| <= 128 && ValidUtf8(command.displayLabel)
    && OfferWindow(command.offerValidFrom, command.offerExpiresAt, now)
    && command.offerExpiresAt <= now + 2 * HOUR
  }

  // The text columns of a verification take these fields.
  predicate StorableCommand(command: ActivationVerify) {
    Storable(command.transactionId) && Storable(command.reservationId) && Storable(command.displayLabel)
  }
}
