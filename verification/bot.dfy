// The bot's flow store (rw-bot): invites, dialogs, activation attempts and the projection of active sessions.
module Bot {
  import opened Base
  import opened Contracts
  import opened Messages
  import Amount
  import Domain
  import Text

  datatype InviteStatus = InviteActive | InviteConsumed | InviteExpired
  datatype Invite = Invite(operationId: Id, commandId: Id, resultId: Id, balanceId: string, status: InviteStatus,
                           expiresAt: Time, consumedAt: Option<Time>, consumedBy: Option<Id>)

  datatype Dialog = NeedsWallet | NeedsReservation | NeedsPayment | NeedsVerification | DialogRejected
  datatype Conversation = Conversation(
    botId: int, userId: int, chatId: int, balanceId: string, displayLabel: string, dialog: Dialog,
    currentAttempt: Option<Id>, updatedAt: Time, version: nat)

  datatype AttemptStatus =
    AwaitingReservation | AwaitingPayment | AwaitingVerification | AttemptActive | AttemptRejected | AttemptExpired
  datatype Offer = Offer(receiverWallet: string, reservationId: string, validFrom: Time, expiresAt: Time)
  datatype Attempt = Attempt(
    sessionId: Id, reserveId: Id, verifyId: Option<Id>, senderWallet: string, amount: string, network: string,
    offer: Option<Offer>, transactionId: Option<string>, status: AttemptStatus, failureCode: Option<string>,
    createdAt: Time, updatedAt: Time, completedAt: Option<Time>, version: nat)

  datatype ActiveRow = ActiveRow(botId: int, userId: int, chatId: int, balance: Fingerprint, displayLabel: string,
                                 authorityVersion: int, activatedAt: Time)

  // Invites are keyed by token, attempts by operation id: unique columns.
  datatype Flow = Flow(tables: Tables, invites: map<string, Invite>, inactive: map<Id, Conversation>,
                       attempts: map<Id, Attempt>, projection: map<Id, ActiveRow>)

  const EMPTY: Flow := Flow(Tables(map[], map[]), map[], map[], map[], map[])

  datatype Settings = Settings(network: string, scale: nat, inviteTtl: Time, amountMin: nat, amountMax: nat,
                               bound: Time)

  // What configuration loading guarantees.
  predicate ValidSettings(cfg: Settings) {
    && cfg.scale <= 18 && cfg.amountMin <= cfg.amountMax <= Amount.MAX_INT64 && LEASE <= cfg.bound
    && 5 * MINUTE <= cfg.inviteTtl <= 168 * HOUR
  }

  predicate Open(status: AttemptStatus) {
    status.AwaitingReservation? || status.AwaitingPayment? || status.AwaitingVerification?
  }

  // ---- invites ----

  // The operation id and the token are unique columns.
  predicate InviteTaken(s: Flow, operationId: Id, token: string) {
    token in s.invites || exists other | other in s.invites :: s.invites[other].operationId == operationId
  }

  function DeepLink(username: string, token: string): string {
    "https://t.me/" + username + "?start=" + token
  }

  function AddInvite(s: Flow, t: Tables, now: Time, id: Id, command: InviteCreate, ttl: Time, token: string,
                     link: string, resultId: Id): Tx<Flow>
  {
    match Insert(t, resultId, InviteCreatedBody(InviteCreated(command.operationId, token, link, now + ttl)), Result,
                 now, now + 5 * MINUTE)
    case Rollback => Rollback
    case Commit(t1) =>
      if InviteTaken(s, command.operationId, token) then Rollback
      else match Complete(t1, id, resultId, now)
           case Rollback => Rollback
           case Commit(t2) =>
             var invite := Invite(command.operationId, id, resultId, command.balanceId, InviteActive,
                                  TruncateToMicros(now + ttl), None, None);
             Commit(s.(tables := t2, invites := s.invites[token := invite]))
  }

  function CreateInvite(s: Flow, now: Time, id: Id, command: InviteCreate, expiresAt: Time, ttl: Time, token: string,
                        link: string, resultId: Id): Tx<Flow>
  {
    var (t, r) := Register(s.tables, id, InviteCreateBody(command), expiresAt);
    match r
    case Collision => Rollback
    case Duplicate(_, _) => Commit(s.(tables := Replay(t, r, now)))
    case Accepted => AddInvite(s, t, now, id, command, ttl, token, link, resultId)
  }

  // An invite cannot be announced before the bot knows its own name.
  function HandleInviteCreate(s: Flow, cfg: Settings, username: string, now: Time, id: Id, command: InviteCreate,
                              expiresAt: Time, token: string, resultId: Id): Tx<Flow>
  {
    if !Domain.ValidateInviteCreate(command) || username == "" then Rollback
    else
      var ttl := if command.requestedTtlSeconds != 0 then command.requestedTtlSeconds * SECOND else cfg.inviteTtl;
      CreateInvite(s, now, id, command, expiresAt, ttl, token, DeepLink(username, token), resultId)
  }

  predicate InProjection(s: Flow, botId: int, userId: int) {
    exists id | id in s.projection :: s.projection[id].botId == botId && s.projection[id].userId == userId
  }

  predicate InInactive(s: Flow, botId: int, userId: int) {
    exists id | id in s.inactive :: s.inactive[id].botId == botId && s.inactive[id].userId == userId
  }

  // A user who is already bound keeps the session; otherwise a live invite binds a new one.
  function ConsumeInvite(s: Flow, now: Time, botId: int, userId: int, chatId: int, displayLabel: string, token: string,
                         sessionId: Id): Tx<Flow>
  {
    if InProjection(s, botId, userId) || InInactive(s, botId, userId) then Commit(s)
    else if token !in s.invites || !s.invites[token].status.InviteActive?
            || s.invites[token].expiresAt <= now then Rollback
    else if sessionId in s.inactive || botId <= 0 || userId <= 0 || chatId <= 0
            || |displayLabel| > 128 || !Text.Storable(displayLabel) then Rollback
    else
      var conversation := Conversation(botId, userId, chatId, s.invites[token].balanceId, displayLabel, NeedsWallet,
                                       None, now, 1);
      Commit(s.(inactive := s.inactive[sessionId := conversation],
             invites := s.invites[token := s.invites[token].(status := InviteConsumed, consumedAt := Some(now),
             consumedBy := Some(sessionId))]))
  }

  // ---- attempts ----

  // The row a SELECT by bot and user returns.
  predicate Finds(s: Flow, botId: int, userId: int, found: Option<Id>) {
    match found
    case Some(id) => id in s.inactive && s.inactive[id].botId == botId && s.inactive[id].userId == userId
    case None => !InInactive(s, botId, userId)
  }

  function SetDialog(s: Flow, sessionId: Id, dialog: Dialog, now: Time): map<Id, Conversation> {
    if sessionId in s.inactive then
      s.inactive[sessionId := s.inactive[sessionId].(dialog := dialog, updatedAt := now,
      version := s.inactive[sessionId].version + 1)]
    else s.inactive
  }

  function NewAttempt(sessionId: Id, reserveId: Id, wallet: string, amount: string, network: string, now: Time): Attempt
  {
    Attempt(sessionId, reserveId, None, wallet, amount, network, None, None, AwaitingReservation, None, now, now, None,
            1)
  }

  // `now` is the start of the transaction, `signedAt` the later moment at which the reserve command is signed.
  function BeginActivation(s: Flow, now: Time, signedAt: Time, found: Option<Id>, wallet: string, amount: string,
                           network: string, operationId: Id, reserveId: Id): Tx<Flow>
  {
    if found.None? || found.value !in s.inactive then Rollback
    else
      var sessionId := found.value;
      var conversation := s.inactive[sessionId];
      if conversation.dialog != NeedsWallet && conversation.dialog != DialogRejected then Rollback
      else
        var reserve := ActivationReserve(operationId, conversation.balanceId, sessionId, wallet, amount, "USDT",
                                         network);
        match Insert(s.tables, reserveId, ReserveBody(reserve), Command, now, signedAt + 2 * MINUTE)
        case Rollback => Rollback
        case Commit(t) =>
          if operationId in s.attempts then Rollback
          else
            var conversation' := conversation.(dialog := NeedsReservation, currentAttempt := Some(operationId),
                                 updatedAt := now,
                                 version := conversation.version + 1);
            Commit(s.(tables := t, inactive := s.inactive[sessionId := conversation'],
                   attempts := s.attempts[operationId := NewAttempt(sessionId, reserveId, wallet, amount, network,
                                                                    now)]))
  }

  // A wallet sent as text; the amount was drawn from the configured range.
  function HandleWallet(s: Flow, cfg: Settings, now: Time, signedAt: Time, found: Option<Id>, wallet: string,
                        minor: nat, operationId: Id, reserveId: Id): Tx<Flow>
  {
    if !Domain.ValidateWallet(wallet) then Commit(s)
    else BeginActivation(s, now, signedAt, found, wallet, Amount.FormatAmount(minor, cfg.scale), cfg.network,
                         operationId, reserveId)
  }

  function Touch(attempt: Attempt, now: Time): Attempt {
    attempt.(updatedAt := now, version := attempt.version + 1)
  }

  function Close(attempt: Attempt, status: AttemptStatus, code: Option<string>, now: Time): Attempt {
    Touch(attempt, now).(status := status, failureCode := code, completedAt := Some(now))
  }

  // Registers an incoming result: what to do with it is decided by the attempt it names.
  datatype Reception = Ignored(tx: Tx<Flow>) | Received(tables: Tables, attempt: Attempt)

  function Receive(s: Flow, now: Time, id: Id, digest: Body, expiresAt: Time, operationId: Id,
                   expected: AttemptStatus): Reception
  {
    var (t, r) := Register(s.tables, id, digest, expiresAt);
    match r
    case Collision => Ignored(Rollback)
    case Duplicate(_, _) => Ignored(Commit(s))
    case Accepted =>
      if operationId !in s.attempts then Ignored(Rollback)
      else if s.attempts[operationId].status != expected then Ignored(Commit(s.(tables := Reject(t, id, now))))
      else Received(t, s.attempts[operationId])
  }

  // The common end of a handled result: the attempt and its dialog move on, a command may be confirmed,
  // the message is acknowledged.
  function MoveOn(s: Flow, t: Tables, now: Time, id: Id, operationId: Id, attempt': Attempt, dialog: Dialog,
                  confirm: Option<Id>): Tx<Flow>
  {
    if attempt'.sessionId !in s.inactive then Rollback
    else
      var t1 := if confirm.Some? then Confirm(t, confirm.value, now) else t;
      match Acknowledge(t1, id, now)
      case Rollback => Rollback
      case Commit(t2) =>
        Commit(s.(tables := t2, attempts := s.attempts[operationId := attempt'],
               inactive := SetDialog(s, attempt'.sessionId, dialog, now)))
  }

  // The attempt after its reservation; the offer's window is stored in microseconds.
  function Reserve(attempt: Attempt, result: ActivationReserved, now: Time): Attempt
    requires result.validFrom.Some? && result.expiresAt.Some?
  {
    var offer := Offer(result.receiverWallet, result.reservationId,
                       TruncateToMicros(result.validFrom.value), TruncateToMicros(result.expiresAt.value));
    Touch(attempt, now).(offer := Some(offer), status := AwaitingPayment)
  }

  predicate ReservationAccepted(result: ActivationReserved, amount: string, now: Time) {
    Domain.ValidateReserved(result, amount, now) && Text.Storable(result.reservationId)
  }

  function ApplyReserved(s: Flow, now: Time, id: Id, result: ActivationReserved, expiresAt: Time): Tx<Flow> {
    match Receive(s, now, id, ReservedBody(result), expiresAt, result.operationId, AwaitingReservation)
    case Ignored(tx) => tx
    case Received(t, attempt) =>
      if !ReservationAccepted(result, attempt.amount, now) then Rollback
      else MoveOn(s, t, now, id, result.operationId, Reserve(attempt, result, now), NeedsPayment,
                  Some(attempt.reserveId))
  }

  function ApplyReserveRejected(s: Flow, now: Time, id: Id, rejection: Rejection, expiresAt: Time): Tx<Flow> {
    match Receive(s, now, id, ReserveRejectedBody(rejection), expiresAt, rejection.operationId, AwaitingReservation)
    case Ignored(tx) => tx
    case Received(t, attempt) =>
      if !Text.Storable(rejection.code) then Rollback
      else MoveOn(s, t, now, id, rejection.operationId, Close(attempt, AttemptRejected, Some(rejection.code), now),
                  DialogRejected, Some(attempt.reserveId))
  }

  function VerifyCommand(attempt: Attempt, offer: Offer, conversation: Conversation, operationId: Id,
                         transactionId: string, network: string): ActivationVerify
  {
    ActivationVerify(operationId, attempt.sessionId, conversation.balanceId, conversation.botId, conversation.userId,
                     conversation.chatId, attempt.senderWallet, offer.receiverWallet, attempt.amount, "USDT", network,
                     transactionId, offer.reservationId, offer.validFrom, offer.expiresAt, conversation.displayLabel)
  }

  // The unique index on (network, transaction_id).
  predicate TransactionTaken(s: Flow, operationId: Id, network: string, transactionId: string) {
    exists other | other in s.attempts ::
      other != operationId && s.attempts[other].network == network
      && s.attempts[other].transactionId == Some(transactionId)
  }

  // The attempt after its payment.
  function Paid(attempt: Attempt, verifyId: Id, transactionId: string, now: Time): Attempt {
    Touch(attempt, now).(verifyId := Some(verifyId), transactionId := Some(transactionId),
    status := AwaitingVerification)
  }

  // What the attempt expects of the payment, whatever transaction it names.
  function ExpectedPayment(attempt: Attempt, offer: Offer, payment: PaymentConfirmed): PaymentConfirmed {
    PaymentConfirmed(payment.operationId, offer.reservationId, payment.transactionId, attempt.senderWallet,
                     offer.receiverWallet,
                     attempt.amount, None)
  }

  predicate PaymentAccepted(attempt: Attempt, offer: Offer, payment: PaymentConfirmed, now: Time) {
    && Domain.ValidatePayment(payment, ExpectedPayment(attempt, offer, payment), offer.expiresAt, now)
    && Text.Storable(payment.transactionId)
  }

  predicate PaymentTaken(s: Flow, attempt: Attempt, payment: PaymentConfirmed, now: Time) {
    && attempt.sessionId in s.inactive && attempt.offer.Some?
    && PaymentAccepted(attempt, attempt.offer.value, payment, now)
  }

  function InsertVerify(t: Tables, cfg: Settings, now: Time, op: Id, attempt: Attempt, offer: Offer,
                        conversation: Conversation, transactionId: string, verifyId: Id): Tx<Tables>
  {
    Insert(t, verifyId, VerifyBody(VerifyCommand(attempt, offer, conversation, op, transactionId, cfg.network)),
           Command,
           now, offer.expiresAt + 30 * MINUTE)
  }

  // The payment is checked against the offer, the verify command is signed and the attempt awaits its verification.
  function Pay(s: Flow, t: Tables, cfg: Settings, now: Time, id: Id, attempt: Attempt, payment: PaymentConfirmed,
               verifyId: Id): Tx<Flow>
  {
    if !PaymentTaken(s, attempt, payment, now) then Rollback
    else
      var inserted := InsertVerify(t, cfg, now, payment.operationId, attempt, attempt.offer.value,
                                   s.inactive[attempt.sessionId],
                                   payment.transactionId, verifyId);
      SendVerify(s, inserted, now, id, attempt, payment, verifyId)
  }

  function SendVerify(s: Flow, inserted: Tx<Tables>, now: Time, id: Id, attempt: Attempt, payment: PaymentConfirmed,
                      verifyId: Id): Tx<Flow>
  {
    if inserted.Rollback? || TransactionTaken(s, payment.operationId, attempt.network,
                                              payment.transactionId) then Rollback
    else MoveOn(s, inserted.state, now, id, payment.operationId, Paid(attempt, verifyId, payment.transactionId, now),
                NeedsVerification, None)
  }

  // An attempt that was never reserved has no reservation to read, which is an error, whatever its status.
  function ApplyPayment(s: Flow, cfg: Settings, now: Time, id: Id, payment: PaymentConfirmed, expiresAt: Time,
                        verifyId: Id): Tx<Flow>
  {
    var op := payment.operationId;
    if id !in s.tables.inbox && op in s.attempts && s.attempts[op].offer.None? then Rollback
    else match Receive(s, now, id, PaymentBody(payment), expiresAt, op, AwaitingPayment)
         case Ignored(tx) => tx
         case Received(t, attempt) => Pay(s, t, cfg, now, id, attempt, payment, verifyId)
  }

  // ---- completion ----

  predicate ValidActivated(activated: Activated, sessionId: Id, conversation: Conversation) {
    && activated.activatedAt.Some? && activated.sessionId == sessionId && activated.status == "ACTIVE"
    && Fingerprint(activated.balanceId) == Fingerprint(conversation.balanceId)
  }

  // INSERT ... ON CONFLICT (session_id) DO UPDATE; the table also refuses a second session of a user and
  // a version below 1.
  function Project(projection: map<Id, ActiveRow>, sessionId: Id, row: ActiveRow): Tx<map<Id, ActiveRow>> {
    if row.authorityVersion <= 0 then Rollback
    else if sessionId in projection then
      Commit(if projection[sessionId].authorityVersion < row.authorityVersion then
               projection[sessionId := projection[sessionId].(authorityVersion := row.authorityVersion,
               activatedAt := row.activatedAt)]
             else projection)
    else if exists id | id in projection :: projection[id].botId == row.botId
                                            && projection[id].userId == row.userId then Rollback
    else Commit(projection[sessionId := row])
  }

  // Deleting a conversation clears the invites that point to it.
  function ClearConsumer(invites: map<string, Invite>, sessionId: Id): map<string, Invite> {
    map token | token in invites ::
      if invites[token].consumedBy == Some(sessionId) then invites[token].(consumedBy := None) else invites[token]
  }

  // The projection row replaces the conversation.
  function Activate(s: Flow, t: Tables, now: Time, id: Id, attempt: Attempt, activated: Activated): Tx<Flow> {
    var sessionId := attempt.sessionId;
    if sessionId !in s.inactive || !ValidActivated(activated, sessionId, s.inactive[sessionId]) then Rollback
    else
      var c := s.inactive[sessionId];
      var row := ActiveRow(c.botId, c.userId, c.chatId, Fingerprint(c.balanceId), c.displayLabel,
                           activated.authorityVersion, TruncateToMicros(activated.activatedAt.value));
      match Project(s.projection, sessionId, row)
      case Rollback => Rollback
      case Commit(projection) =>
        var t1 := if attempt.verifyId.Some? then Confirm(t, attempt.verifyId.value, now) else t;
        match Acknowledge(t1, id, now)
        case Rollback => Rollback
        case Commit(t2) =>
          Commit(Flow(t2, ClearConsumer(s.invites, sessionId), s.inactive - {sessionId},
                      s.attempts[activated.operationId := Close(attempt, AttemptActive, attempt.failureCode, now)],
                      projection))
  }

  function CompleteActivated(s: Flow, now: Time, id: Id, activated: Activated, expiresAt: Time): Tx<Flow> {
    match Receive(s, now, id, ActivatedBody(activated), expiresAt, activated.operationId, AwaitingVerification)
    case Ignored(tx) => tx
    case Received(t, attempt) => Activate(s, t, now, id, attempt, activated)
  }

  function CompleteRejected(s: Flow, now: Time, id: Id, rejection: Rejection, expiresAt: Time): Tx<Flow> {
    match Receive(s, now, id, ActivationRejectedBody(rejection), expiresAt, rejection.operationId, AwaitingVerification)
    case Ignored(tx) => tx
    case Received(t, attempt) =>
      if !Text.Storable(rejection.code) then Rollback
      else MoveOn(s, t, now, id, rejection.operationId, Close(attempt, AttemptRejected, Some(rejection.code), now),
                  DialogRejected, attempt.verifyId)
  }

  // ---- expiry ----

  predicate Overdue(s: Flow, op: Id, now: Time) {
    && op in s.attempts
    && var attempt := s.attempts[op];
    || (attempt.status.AwaitingReservation? && attempt.createdAt + 2 * MINUTE <= now)
    || (attempt.status.AwaitingPayment? && attempt.offer.Some? && attempt.offer.value.expiresAt <= now)
    || (attempt.status.AwaitingVerification? && attempt.offer.Some?
        && attempt.offer.value.expiresAt + 30 * MINUTE <= now)
  }

  function ExpireOne(s: Flow, op: Id, now: Time): Flow {
    if !Overdue(s, op, now) then s
    else
      s.(attempts := s.attempts[op := Close(s.attempts[op], AttemptExpired, Some("EXPIRED"), now)],
      inactive := SetDialog(s, s.attempts[op].sessionId, DialogRejected, now))
  }

  // One statement updates all selected attempts; row by row it comes to the same.
  function ExpireAttempts(s: Flow, ops: seq<Id>, now: Time): Flow
    decreases |ops|
  {
    if ops == [] then s else ExpireAttempts(ExpireOne(s, ops[0], now), ops[1..], now)
  }

  // ---- steps ----

  datatype Step =
    | DeliverInviteCreate(id: Id, command: InviteCreate, expiresAt: Time, username: string, token: string, resultId: Id)
    | Consume(botId: int, userId: int, chatId: int, displayLabel: string, token: string, sessionId: Id)
    | SendWallet(botId: int, userId: int, found: Option<Id>, wallet: string, minor: nat, signedAt: Time,
                 operationId: Id, reserveId: Id)
    | DeliverReserved(id: Id, reserved: ActivationReserved, expiresAt: Time)
    | DeliverReserveRejected(id: Id, rejection: Rejection, expiresAt: Time)
    | DeliverPayment(id: Id, payment: PaymentConfirmed, expiresAt: Time, verifyId: Id)
    | DeliverActivated(id: Id, activated: Activated, expiresAt: Time)
    | DeliverRejected(id: Id, rejection: Rejection, expiresAt: Time)
    | Expire(ops: seq<Id>)
    | Publish(publisher: PublisherStep)

  function StepTx(s: Flow, cfg: Settings, now: Time, step: Step): Tx<Flow> {
    match step
    case DeliverInviteCreate(id, command, expiresAt, username, token, resultId) =>
      HandleInviteCreate(s, cfg, username, now, id, command, expiresAt, token, resultId)
    case Consume(botId, userId, chatId, displayLabel, token, sessionId) =>
      ConsumeInvite(s, now, botId, userId, chatId, displayLabel, token, sessionId)
    case SendWallet(botId, userId, found, wallet, minor, signedAt, operationId, reserveId) =>
      HandleWallet(s, cfg, now, signedAt, found, wallet, minor, operationId, reserveId)
    case DeliverReserved(id, reserved, expiresAt) => ApplyReserved(s, now, id, reserved, expiresAt)
    case DeliverReserveRejected(id, rejection, expiresAt) => ApplyReserveRejected(s, now, id, rejection, expiresAt)
    case DeliverPayment(id, payment, expiresAt, verifyId) => ApplyPayment(s, cfg, now, id, payment, expiresAt, verifyId)
    case DeliverActivated(id, activated, expiresAt) => CompleteActivated(s, now, id, activated, expiresAt)
    case DeliverRejected(id, rejection, expiresAt) => CompleteRejected(s, now, id, rejection, expiresAt)
    case Expire(ops) => Commit(ExpireAttempts(s, ops, now))
    case Publish(publisher) => Commit(s.(tables := s.tables.(outbox := PublisherNext(s.tables.outbox, publisher, now))))
  }

  function NextDb(s: Flow, cfg: Settings, now: Time, step: Step): Flow {
    StepTx(s, cfg, now, step).After(s)
  }
}
