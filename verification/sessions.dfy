// The authority (rw-active-sessions): tables and transactions as functions of the whole database.
module Sessions {
  import opened Base
  import opened Contracts
  import opened Messages
  import Domain
  import Text

  datatype VerificationStatus = VerificationPending | Verified | Rejected | Expired
  datatype Verification = Verification(
    command: ActivationVerify, commandId: Id, topupId: Id, status: VerificationStatus,
    failureCode: Option<string>, updatedAt: Time, completedAt: Option<Time>, version: nat)

  datatype Identity = Identity(balanceId: string, wallet: string, walletFingerprint: Fingerprint, network: string)

  datatype SessionStatus = Active | Revoked
  datatype Session = Session(
    identity: Fingerprint, botId: int, userId: int, chatId: int, displayLabel: string, status: SessionStatus,
    network: string, transactionId: string, firstActivatedAt: Time, lastActivatedAt: Time, version: nat)

  datatype EventType = ActivatedEvent | ReactivatedEvent
  datatype SessionEvent = SessionEvent(sessionId: Id, eventType: EventType, version: nat, occurredAt: Time,
                                       network: string, transactionId: string)

  // Verifications and events are keyed by operation id, identities by balance fingerprint: the unique columns.
  datatype Authority = Authority(
    tables: Tables, verifications: map<Id, Verification>, identities: map<Fingerprint, Identity>,
    sessions: map<Id, Session>, events: map<Id, SessionEvent>)

  const EMPTY: Authority := Authority(Tables(map[], map[]), map[], map[], map[], map[])

  datatype PendingRetry = PendingRetry(operationId: Id, commandId: Id, topupId: Id, offerExpiresAt: Time,
                                       balanceId: string, facts: TopupVerify)

  function FactsOf(command: ActivationVerify): TopupVerify {
    TopupVerify(command.operationId, command.transactionId, command.reservationId, command.senderWallet,
                command.receiverWallet, command.amount, "USDT", command.network)
  }

  // Six fields; the asset is not compared.
  predicate SameFacts(actual: TopupVerified, expected: TopupVerify) {
    && actual.transactionId == expected.transactionId && actual.reservationId == expected.reservationId
    && actual.senderWallet == expected.senderWallet && actual.receiverWallet == expected.receiverWallet
    && actual.amount == expected.amount && actual.network == expected.network
  }

  // The column offer_expires_at of a verification.
  function StoredExpiry(command: ActivationVerify): Time { TruncateToMicros(command.offerExpiresAt) }

  // ---- accepting a verification command ----

  function NewVerification(command: ActivationVerify, commandId: Id, topupId: Id, now: Time): Verification {
    Verification(command, commandId, topupId, VerificationPending, None, now, None, 1)
  }

  function AcceptVerification(s: Authority, now: Time, id: Id, command: ActivationVerify, expiresAt: Time, topupId: Id,
                              topup: TopupVerify, topupExpiresAt: Time): Tx<Authority>
  {
    var (t, r) := Register(s.tables, id, VerifyBody(command), expiresAt);
    match r
    case Collision => Rollback
    case Duplicate(_, _) => Commit(s.(tables := Replay(t, r, now)))
    case Accepted =>
      match Insert(t, topupId, TopupVerifyBody(topup), Command, now, topupExpiresAt)
      case Rollback => Rollback
      case Commit(t') =>
        if command.operationId in s.verifications || !Domain.StorableCommand(command) then Rollback
        else Commit(s.(tables := t', verifications :=
                    s.verifications[command.operationId := NewVerification(command, id, topupId, now)]))
  }

  // The service validates the command and signs the top-up command; an expiry in the past cannot be signed.
  function HandleVerify(s: Authority, network: string, now: Time, id: Id, command: ActivationVerify, expiresAt: Time,
                        topupId: Id): Tx<Authority>
  {
    var topupExpiresAt := Min(now + 5 * MINUTE, expiresAt);
    if !Domain.ValidateActivation(command, network, now) || topupExpiresAt <= now then Rollback
    else AcceptVerification(s, now, id, command, expiresAt, topupId, FactsOf(command).(asset := command.asset),
                            topupExpiresAt)
  }

  // ---- deciding a verification ----

  function ResultBody(command: ActivationVerify, status: VerificationStatus, version: nat, code: string,
                      retryable: bool, now: Time): Body
  {
    if status.Verified? then
      ActivatedBody(Activated(command.operationId, command.sessionId, command.balanceId, "ACTIVE", version, Some(now)))
    else ActivationRejectedBody(Rejection(command.operationId, code, retryable))
  }

  // Result row, command and incoming inbox rows, and confirmation of the top-up command.
  function FinishTables(t: Tables, now: Time, commandId: Id, topupId: Id, body: Body, resultId: Id,
                        incoming: Option<Id>): Tx<Tables>
  {
    match Insert(t, resultId, body, Result, now, now + 24 * HOUR)
    case Rollback => Rollback
    case Commit(t1) => Settle(t1, now, commandId, topupId, resultId, incoming)
  }

  function Settle(t: Tables, now: Time, commandId: Id, topupId: Id, resultId: Id, incoming: Option<Id>): Tx<Tables> {
    match CompleteBoth(t, now, commandId, resultId, incoming)
    case Rollback => Rollback
    case Commit(t') => Commit(Confirm(t', topupId, now))
  }

  function CompleteBoth(t: Tables, now: Time, commandId: Id, resultId: Id, incoming: Option<Id>): Tx<Tables> {
    match Complete(t, commandId, resultId, now)
    case Rollback => Rollback
    case Commit(t') => if incoming.Some? then Complete(t', incoming.value, resultId, now) else Commit(t')
  }

  function Finish(s: Authority, now: Time, operationId: Id, commandId: Id, status: VerificationStatus, body: Body,
                  code: Option<string>, resultId: Id, incoming: Option<Id>): Tx<Authority>
    requires operationId in s.verifications
  {
    var row := s.verifications[operationId];
    match FinishTables(s.tables, now, commandId, row.topupId, body, resultId, incoming)
    case Rollback => Rollback
    case Commit(t) =>
      var row' := row.(status := status, failureCode := code, updatedAt := now, completedAt := Some(now),
                  version := row.version + 1);
      Commit(s.(tables := t, verifications := s.verifications[operationId := row']))
  }

  function FinishRejected(s: Authority, now: Time, operationId: Id, code: string, retryable: bool, resultId: Id,
                          incoming: Id): Tx<Authority>
    requires operationId in s.verifications
  {
    Finish(s, now, operationId, s.verifications[operationId].commandId, Rejected,
           ResultBody(s.verifications[operationId].command, Rejected, 0, code, retryable, now),
           if code == "" then None else Some(code), resultId, Some(incoming))
  }

  // First wallet wins: the stored wallet and network decide for every later verification of the balance.
  function EnsureIdentity(s: Authority, command: ActivationVerify): (Authority, bool) {
    var key := Fingerprint(command.balanceId);
    if key !in s.identities then
      (s.(identities := s.identities[key :=
       Identity(command.balanceId, command.senderWallet, Fingerprint(command.senderWallet), command.network)]), true)
    else
      var stored := s.identities[key];
      if stored.network != command.network || stored.walletFingerprint != Fingerprint(command.senderWallet) then (s,
                                                                                                                  false)
      else (s, stored.wallet == command.senderWallet)
  }

  predicate Conflicts(session: Session, command: ActivationVerify) {
    || (session.botId == command.botId && session.userId == command.userId && session.status.Active?)
    || (session.network == command.network && session.transactionId == command.transactionId)
  }

  predicate SessionConflict(s: Authority, command: ActivationVerify) {
    exists id | id in s.sessions :: id != command.sessionId && Conflicts(s.sessions[id], command)
  }

  datatype Activation = Activation(state: Authority, version: nat) | Conflict | DatabaseError

  // The two unique indexes on active_sessions.
  predicate UniqueAgainst(sessions: map<Id, Session>, id: Id, session: Session) {
    forall other | other in sessions && other != id ::
      && !(sessions[other].status.Active? && session.status.Active?
           && sessions[other].botId == session.botId && sessions[other].userId == session.userId)
      && !(sessions[other].network == session.network && sessions[other].transactionId == session.transactionId)
  }

  function ActivateSession(s: Authority, now: Time, command: ActivationVerify): Activation {
    if SessionConflict(s, command) then Conflict
    else
      var id, identity := command.sessionId, Fingerprint(command.balanceId);
      if id in s.sessions && (s.sessions[id].identity != identity || !s.sessions[id].status.Active?) then Conflict
      else
        var session :=
          if id !in s.sessions then
            Session(identity, command.botId, command.userId, command.chatId, command.displayLabel, Active,
                    command.network, command.transactionId, now, now, 1)
          else
            s.sessions[id].(chatId := command.chatId, network := command.network,
            transactionId := command.transactionId,
            lastActivatedAt := now, version := s.sessions[id].version + 1);
        if !UniqueAgainst(s.sessions, id, session) || command.operationId in s.events then DatabaseError
        else
          var event := SessionEvent(id, if id in s.sessions then ReactivatedEvent else ActivatedEvent,
                                    session.version, now, command.network, command.transactionId);
          Activation(s.(sessions := s.sessions[id := session], events := s.events[command.operationId := event]),
                     session.version)
  }

  predicate FactsAccepted(verified: TopupVerified, command: ActivationVerify, now: Time) {
    && SameFacts(verified, FactsOf(command))
    && verified.finalizedAt.Some? && verified.finalizedAt.value <= StoredExpiry(command)
    && verified.finalizedAt.value <= now + 2 * MINUTE
  }

  // A top-up confirmation for a pending verification, after its inbox row was registered.
  function DecideVerified(s: Authority, now: Time, id: Id, verified: TopupVerified, resultId: Id): Tx<Authority>
    requires verified.operationId in s.verifications
  {
    var op := verified.operationId;
    var command := s.verifications[op].command;
    if !FactsAccepted(verified, command, now) then FinishRejected(s, now, op, "CONTRACT_VIOLATION", false, resultId, id)
    else
      var (s1, walletMatch) := EnsureIdentity(s, command);
      if !walletMatch then FinishRejected(s1, now, op, "WALLET_MISMATCH", false, resultId, id)
      else match ActivateSession(s1, now, command)
           case DatabaseError => Rollback
           case Conflict => FinishRejected(s1, now, op, "CONFLICT", false, resultId, id)
           case Activation(s2, version) =>
             Finish(s2, now, op, s.verifications[op].commandId, Verified,
                    ResultBody(command, Verified, version, "", false, now), None, resultId, Some(id))
  }

  function ApplyTopupVerified(s: Authority, now: Time, id: Id, verified: TopupVerified, expiresAt: Time,
                              resultId: Id): Tx<Authority>
  {
    var (t, r) := Register(s.tables, id, TopupVerifiedBody(verified), expiresAt);
    match r
    case Collision => Rollback
    case Duplicate(_, _) => Commit(s.(tables := Replay(t, r, now)))
    case Accepted =>
      if verified.operationId !in s.verifications then Rollback
      else if !s.verifications[verified.operationId].status.VerificationPending? then Commit(s.(tables := Reject(t, id,
                                                                                                                 now)))
      else DecideVerified(s.(tables := t), now, id, verified, resultId)
  }

  function ApplyTopupRejected(s: Authority, now: Time, id: Id, rejection: Rejection, expiresAt: Time,
                              resultId: Id): Tx<Authority>
  {
    var (t, r) := Register(s.tables, id, TopupRejectedBody(rejection), expiresAt);
    match r
    case Collision => Rollback
    case Duplicate(_, _) => Commit(s.(tables := Replay(t, r, now)))
    case Accepted =>
      if rejection.operationId !in s.verifications then Rollback
      else if !s.verifications[rejection.operationId].status.VerificationPending? then Commit(s.(tables := Reject(t, id,
                                                                                                                  now)))
      else if !Text.Storable(rejection.code) then Rollback
      else FinishRejected(s.(tables := t), now, rejection.operationId, rejection.code, rejection.retryable, resultId,
                          id)
  }

  // ---- reconciliation ----

  // Pending verifications whose offer passed or whose top-up command died.
  predicate NeedsRetry(s: Authority, op: Id, now: Time) {
    && op in s.verifications && s.verifications[op].status.VerificationPending?
    && s.verifications[op].topupId in s.tables.outbox
    && (StoredExpiry(s.verifications[op].command) <= now
        || s.tables.outbox[s.verifications[op].topupId].status.Dead?)
  }

  function RetryItem(s: Authority, op: Id): PendingRetry
    requires op in s.verifications
  {
    var row := s.verifications[op];
    PendingRetry(op, row.commandId, row.topupId, StoredExpiry(row.command), row.command.balanceId,
                 FactsOf(row.command))
  }

  // The item was read earlier: nothing happens unless the row is still pending with the same top-up command.
  predicate Current(s: Authority, item: PendingRetry) {
    && item.operationId in s.verifications && s.verifications[item.operationId].status.VerificationPending?
    && s.verifications[item.operationId].topupId == item.topupId
  }

  function ReplaceTopupCommand(s: Authority, now: Time, item: PendingRetry, newId: Id, expiresAt: Time): Tx<Authority> {
    if item.operationId !in s.verifications then Rollback
    else if !Current(s, item) then Commit(s)
    else match Insert(s.tables, newId, TopupVerifyBody(item.facts), Command, now, expiresAt)
         case Rollback => Rollback
         case Commit(t) =>
           var row := s.verifications[item.operationId];
           Commit(s.(tables := t, verifications :=
                  s.verifications[item.operationId := row.(topupId := newId, updatedAt := now,
                  version := row.version + 1)]))
  }

  function ExpireVerification(s: Authority, now: Time, item: PendingRetry, resultId: Id): Tx<Authority> {
    if item.operationId !in s.verifications then Rollback
    else if !Current(s, item) then Commit(s)
    else
      var body := ActivationRejectedBody(Rejection(item.operationId, "EXPIRED", false));
      Finish(s, now, item.operationId, item.commandId, Expired, body, Some("EXPIRED"), resultId, None)
  }

  // One item of a reconciliation pass that read the clock at `passStart`.
  function ReconcileItem(s: Authority, now: Time, passStart: Time, item: PendingRetry, freshId: Id): Tx<Authority> {
    if item.offerExpiresAt <= passStart then ExpireVerification(s, now, item, freshId)
    else
      var expiresAt := Min(passStart + 5 * MINUTE, item.offerExpiresAt);
      if expiresAt <= now then Rollback else ReplaceTopupCommand(s, now, item, freshId, expiresAt)
  }

  // ---- steps of the authority: handled deliveries, reads and actions of the reconciler, publisher work ----

  datatype Step =
    | DeliverVerify(id: Id, command: ActivationVerify, expiresAt: Time, topupId: Id)
    | DeliverTopupVerified(id: Id, verified: TopupVerified, expiresAt: Time, resultId: Id)
    | DeliverTopupRejected(id: Id, rejection: Rejection, expiresAt: Time, resultId: Id)
    | ReadPending(ops: set<Id>)
    | Reconcile(seen: Seen, passStart: Time, freshId: Id)
    | Publish(publisher: PublisherStep)

  // An item of PendingRetries and the moment it was read.
  datatype Seen = Seen(item: PendingRetry, at: Time)

  function StepTx(s: Authority, network: string, now: Time, step: Step): Tx<Authority> {
    match step
    case DeliverVerify(id, command, expiresAt, topupId) =>
      HandleVerify(s, network, now, id, command, expiresAt, topupId)
    case DeliverTopupVerified(id, verified, expiresAt, resultId) =>
      ApplyTopupVerified(s, now, id, verified, expiresAt, resultId)
    case DeliverTopupRejected(id, rejection, expiresAt, resultId) =>
      if rejection.code == "" then Rollback else ApplyTopupRejected(s, now, id, rejection, expiresAt, resultId)
    case ReadPending(_) => Commit(s)
    case Reconcile(seen, passStart, freshId) => ReconcileItem(s, now, passStart, seen.item, freshId)
    case Publish(publisher) => Commit(s.(tables := s.tables.(outbox := PublisherNext(s.tables.outbox, publisher, now))))
  }

  function NextDb(s: Authority, network: string, now: Time, step: Step): Authority {
    StepTx(s, network, now, step).After(s)
  }
}
