// What holds of the bot in every reachable state and over every run.
module BotTheorems {
  import opened Base
  import opened Contracts
  import opened Messages
  import opened Bot
  import opened BotInvariant
  import opened BotHistory
  import opened BotSteps
  import opened BotMachine
  import opened BotContract
  import opened BotRuns
  import Counting
  import Domain

  // ---- attempts and dialogs ----

  // An attempt is open exactly when it is the current one of an existing conversation that is in the same state; so a
  // conversation has at most one open attempt.
  lemma OpenExactlyWhenDriving(s: Flow, now: Time, op: Id, other: Id)
    requires Inv(s, now) && op in s.attempts && other in s.attempts
    ensures Open(s.attempts[op].status) <==> Driving(s, op)
    ensures (Open(s.attempts[op].status) && Open(s.attempts[other].status)
             && s.attempts[op].sessionId == s.attempts[other].sessionId) ==> op == other
  {}

  // A dialog that waits for a wallet has no attempt, a rejected one ended in rejection or expiry, any other one
  // has its open attempt.
  lemma DialogTellsItsAttempt(s: Flow, now: Time, id: Id)
    requires Inv(s, now) && id in s.inactive
    ensures var c := s.inactive[id];
            match c.dialog
            case NeedsWallet =>
              c.currentAttempt.None? && (forall op | op in s.attempts
                                                     && s.attempts[op].sessionId == id :: !Open(s.attempts[op].status))
            case DialogRejected =>
              && c.currentAttempt.Some? && c.currentAttempt.value in s.attempts
              && var status := s.attempts[c.currentAttempt.value].status;
              status.AttemptRejected? || status.AttemptExpired?
            case _ =>
              && c.currentAttempt.Some? && Open(s.attempts[c.currentAttempt.value].status)
              && Driving(s, c.currentAttempt.value)
  {}

  // A reservation is taken exactly when its message is new, the attempt awaits it and the offer is valid: no other
  // check or statement of the transaction can stop it.
  lemma ReservationIsTakenExactlyIfValid(s: Flow, now: Time, at: Time, id: Id, result: ActivationReserved,
                                         expiresAt: Time)
    requires Inv(s, now) && result.operationId in s.attempts
    ensures var op, s' := result.operationId, ApplyReserved(s, at, id, result, expiresAt).After(s);
            op in s'.attempts &&
            (s'.attempts[op] != s.attempts[op] <==>
             id !in s.tables.inbox && s.attempts[op].status.AwaitingReservation?
             && ReservationAccepted(result, s.attempts[op].amount, at))
  {
    var op, digest := result.operationId, ReservedBody(result);
    var r := Receive(s, at, id, digest, expiresAt, op, AwaitingReservation);
    assert AttemptOk(s, op);
    if r.Received? {
      ReservedShape(s, at, id, result, expiresAt);
      ReceivedShape(s, at, id, digest, expiresAt, op, AwaitingReservation);
      if ReservationAccepted(result, r.attempt.amount, at) {
        ReserveMovesOn(r.attempt, result, at);
        MoveOnAdvances(s, r.tables, at, id, op, Reserve(r.attempt, result, at), NeedsPayment,
                       Some(r.attempt.reserveId));
      }
    } else {
      ReceivedWhenExpected(s, at, id, digest, expiresAt, op, AwaitingReservation);
    }
  }

  // What a payment must meet: nothing else can stop it.
  predicate PaymentMeets(s: Flow, at: Time, id: Id, payment: PaymentConfirmed)
    requires payment.operationId in s.attempts
  {
    var a := s.attempts[payment.operationId];
    && id !in s.tables.inbox && a.status.AwaitingPayment? && a.offer.Some?
    && PaymentAccepted(a, a.offer.value, payment, at) && at < TruncateToMicros(a.offer.value.expiresAt + 30 * MINUTE)
    && !TransactionTaken(s, payment.operationId, a.network, payment.transactionId)
  }

  lemma PayTakesExactly(s: Flow, t: Tables, cfg: Settings, at: Time, id: Id, payment: PaymentConfirmed, verifyId: Id)
    requires payment.operationId in s.attempts && AttemptOk(s, payment.operationId) && Registered(s, t, id)
    requires s.attempts[payment.operationId].status.AwaitingPayment? && verifyId !in t.outbox
    ensures var op, tx := payment.operationId, Pay(s, t, cfg, at, id, s.attempts[payment.operationId], payment,
                                                   verifyId);
            && (tx.Commit? <==> PaymentMeets(s, at, id, payment))
            && (tx.Commit? ==> op in tx.state.attempts && tx.state.attempts[op]
                                                          == Paid(s.attempts[op], verifyId, payment.transactionId, at))
  {
    var op, attempt := payment.operationId, s.attempts[payment.operationId];
    if PaymentTaken(s, attempt, payment, at) {
      var inserted := InsertVerify(t, cfg, at, op, attempt, attempt.offer.value, s.inactive[attempt.sessionId],
                                   payment.transactionId, verifyId);
      if inserted.Commit? {
        MoveOnAdvances(s, inserted.state, at, id, op, Paid(attempt, verifyId, payment.transactionId, at),
                       NeedsVerification, None);
      }
    }
  }

  // A payment is taken exactly when its message is new, the attempt awaits it, it matches the offer, the command can
  // still be signed and no other attempt has the transaction.
  lemma PaymentIsTakenExactlyIfValid(s: Flow, cfg: Settings, now: Time, at: Time, id: Id, payment: PaymentConfirmed,
                                     expiresAt: Time, verifyId: Id)
    requires Inv(s, now) && payment.operationId in s.attempts && verifyId !in s.tables.outbox
    ensures var op, s' := payment.operationId, ApplyPayment(s, cfg, at, id, payment, expiresAt, verifyId).After(s);
            op in s'.attempts && (s'.attempts[op] != s.attempts[op] <==> PaymentMeets(s, at, id, payment))
  {
    var op, digest := payment.operationId, PaymentBody(payment);
    var r := Receive(s, at, id, digest, expiresAt, op, AwaitingPayment);
    ReceivedWhenExpected(s, at, id, digest, expiresAt, op, AwaitingPayment);
    assert AttemptOk(s, op);
    if r.Received? {
      ApplyPaymentIsPay(s, cfg, at, id, payment, expiresAt, verifyId);
      ReceivedShape(s, at, id, digest, expiresAt, op, AwaitingPayment);
      PayTakesExactly(s, r.tables, cfg, at, id, payment, verifyId);
    } else {
      IgnoredPayment(s, cfg, at, id, payment, expiresAt, verifyId);
    }
  }

  lemma ReceivedWhenExpected(s: Flow, now: Time, id: Id, digest: Body, expiresAt: Time, op: Id, expected: AttemptStatus)
    requires op in s.attempts
    ensures Receive(s, now, id, digest, expiresAt, op, expected).Received? <==> id !in s.tables.inbox
                                                                                && s.attempts[op].status == expected
    ensures Receive(s, now, id, digest, expiresAt, op, expected).Ignored? ==>
              Receive(s, now, id, digest, expiresAt, op, expected).tx.After(s).attempts == s.attempts
  {}

  // A new payment for an attempt that does not await one is rejected for good exactly when the attempt has an offer;
  // without one it is an error, and the message stays new.
  lemma LatePaymentIsRejectedExactlyIfOffered(s: Flow, cfg: Settings, now: Time, id: Id, payment: PaymentConfirmed,
                                              expiresAt: Time, verifyId: Id)
    requires id !in s.tables.inbox && payment.operationId in s.attempts
    requires !s.attempts[payment.operationId].status.AwaitingPayment?
    ensures var tx := ApplyPayment(s, cfg, now, id, payment, expiresAt, verifyId);
            && (tx.Commit? <==> s.attempts[payment.operationId].offer.Some?)
            && (tx.Commit? ==> id in tx.state.tables.inbox && tx.state.tables.inbox[id].status.Refused?
                               && tx.state
                                  == s.(tables := s.tables.(inbox := s.tables.inbox[id := tx.state.tables.inbox[id]])))
  {}

  // A well-formed confirmation for an attempt that awaits verification.
  predicate Answers(s: Flow, id: Id, activated: Activated) {
    && id !in s.tables.inbox && activated.operationId in s.attempts
    && s.attempts[activated.operationId].status.AwaitingVerification?
    && activated.authorityVersion >= 1 && activated.activatedAt.Some? && activated.status == "ACTIVE"
    && activated.sessionId == s.attempts[activated.operationId].sessionId
    && activated.sessionId in s.inactive && activated.balanceId == s.inactive[activated.sessionId].balanceId
  }

  ghost predicate Projected(s: Flow, s': Flow, activated: Activated) {
    var sessionId := activated.sessionId;
    && sessionId in s.inactive && sessionId !in s.projection && sessionId !in s'.inactive
    && s'.projection.Keys == s.projection.Keys + {sessionId}
    && s'.projection[sessionId].authorityVersion == activated.authorityVersion
    && Projects(s'.projection[sessionId], s.inactive[sessionId])
    && ActivatedBy(s', sessionId, activated.operationId)
  }

  lemma AnswerIsReceived(s: Flow, now: Time, id: Id, activated: Activated, expiresAt: Time)
    requires Answers(s, id, activated)
    ensures Receive(s, now, id, ActivatedBody(activated), expiresAt, activated.operationId,
                    AwaitingVerification).Received?
  {}

  lemma CompletedIsProjected(s: Flow, s': Flow, now: Time, activated: Activated)
    requires activated.operationId in s.attempts && s.attempts[activated.operationId].sessionId == activated.sessionId
    requires Completes(s, s', activated.operationId, now)
    requires s'.projection[activated.sessionId].authorityVersion == activated.authorityVersion
    ensures Projected(s, s', activated)
  {}

  // The answer of the authority to an attempt that awaits verification is always applied: the insert into the
  // projection meets neither its conflict arm nor its unique index.
  lemma ActivatedIsApplied(s: Flow, now: Time, at: Time, id: Id, activated: Activated, expiresAt: Time)
    requires Inv(s, now) && Answers(s, id, activated)
    ensures var tx := CompleteActivated(s, at, id, activated, expiresAt);
            tx.Commit? && Projected(s, tx.state, activated)
  {
    assert AttemptOk(s, activated.operationId);
    AnswerIsReceived(s, at, id, activated, expiresAt);
    CompletedShape(s, at, id, activated, expiresAt);
    CompletedIsProjected(s, CompleteActivated(s, at, id, activated, expiresAt).state, at, activated);
  }

  // A closed attempt never changes again, and a conversation is later either still a conversation of the same user and
  // balance or a projected session of them.
  lemma ClosedIsFinal(w: World, moves: seq<Move>, cfg: Settings, op: Id)
    requires WorldOk(w, cfg) && EnabledRun(w, moves, cfg) && op in w.db.attempts && !Open(w.db.attempts[op].status)
    ensures var s' := Run(w, moves, cfg).db; op in s'.attempts && s'.attempts[op] == w.db.attempts[op]
  {
    RunKeepsWorld(w, moves, cfg);
    assert AttemptContinues(w.db.attempts[op], Run(w, moves, cfg).db.attempts[op]);
  }

  // ---- invites ----

  // An invite exists only as the completed answer to one order: its RESULT row carries its token and expiry, the
  // order's inbox row points to it, and no other invite was made for the operation.
  lemma InviteAnswersItsOrder(w: World, cfg: Settings, token: string, other: string)
    requires WorldOk(w, cfg) && token in w.db.invites && other in w.db.invites
    ensures InviteOk(w.db, token)
    ensures w.db.invites[token].operationId == w.db.invites[other].operationId ==> token == other
  {}

  ghost function Consumed(s: Flow): set<string> {
    set token | token in s.invites && s.invites[token].status.InviteConsumed?
  }

  // Every consumed invite stands for exactly one conversation or projected session, and none of these lacks an invite.
  lemma InvitesAreConserved(w: World, cfg: Settings)
    requires WorldOk(w, cfg)
    ensures w.binding.Keys == Consumed(w.db) && w.binding.Values == w.db.inactive.Keys + w.db.projection.Keys
    ensures |Consumed(w.db)| == |w.db.inactive.Keys| + |w.db.projection.Keys|
  {
    BindingCovers(w.db, w.binding);
    Counting.InjectiveMapSize(w.binding);
    forall id | id in w.db.inactive ensures id !in w.db.projection { assert ConversationOk(w.db, id); }
    assert w.db.inactive.Keys !! w.db.projection.Keys;
  }

  lemma BindingCovers(s: Flow, binding: map<string, Id>)
    requires BindingOk(s, binding)
    ensures binding.Keys == Consumed(s) && binding.Values == s.inactive.Keys + s.projection.Keys
  {}

  lemma StepKeepsToken(w: World, move: Move, cfg: Settings, token: string)
    requires token in w.binding && token in w.db.invites && w.db.invites[token].status.InviteConsumed?
    ensures token in Next(w, move, cfg).binding && Next(w, move, cfg).binding[token] == w.binding[token]
  {}

  lemma StepKeepsBound(w: World, move: Move, cfg: Settings, token: string)
    requires BindingOk(w.db, w.binding) && InvitesContinue(w.db, Next(w, move, cfg).db) && token in w.binding
    ensures var w' := Next(w, move, cfg);
            token in w'.binding && w'.binding[token] == w.binding[token] && token in w.db.invites
            && token in w'.db.invites
            && w'.db.invites[token].balanceId == w.db.invites[token].balanceId
  {
    assert BoundSession(w.db, w.db.invites[token], w.binding[token]);
    StepKeepsToken(w, move, cfg, token);
    assert InviteContinues(w.db.invites[token], Next(w, move, cfg).db.invites[token]);
  }

  lemma StepKeepsInvite(w: World, move: Move, cfg: Settings, token: string)
    requires WorldOk(w, cfg) && Enabled(w, move, cfg) && token in w.binding && token in w.db.invites
    ensures var w' := Next(w, move, cfg);
            && WorldOk(w', cfg) && token in w'.binding && w'.binding[token] == w.binding[token]
            && token in w'.db.invites
            && w'.db.invites[token].balanceId == w.db.invites[token].balanceId
  {
    StepKeepsWorld(w, move, cfg);
    StepKeepsBound(w, move, cfg, token);
  }

  // An invite is bound once and for all: in every later state the session it was consumed by is a conversation or a
  // projected session, and its balance is the one the invite was made for.
  lemma {:induction false} InviteBindsForever(w: World, moves: seq<Move>, cfg: Settings, token: string)
    requires WorldOk(w, cfg) && EnabledRun(w, moves, cfg) && token in w.binding && token in w.db.invites
    ensures BoundFor(Run(w, moves, cfg), token, w.binding[token], w.db.invites[token].balanceId)
    decreases |moves|
  {
    if moves == [] {
      BindingSays(w, token);
    } else {
      StepKeepsInvite(w, moves[0], cfg, token);
      InviteBindsForever(Next(w, moves[0], cfg), moves[1..], cfg, token);
    }
  }

  // The invite is bound to this session, which is a conversation or a projected session of this balance.
  predicate BoundFor(w: World, token: string, id: Id, balanceId: string) {
    && token in w.binding && w.binding[token] == id
    && (id in w.db.inactive || id in w.db.projection)
    && (id in w.db.inactive ==> w.db.inactive[id].balanceId == balanceId)
    && (id in w.db.projection ==> w.db.projection[id].balance == Fingerprint(balanceId))
  }

  lemma BindingSays(w: World, token: string)
    requires BindingOk(w.db, w.binding) && token in w.binding && token in w.db.invites
    ensures BoundFor(w, token, w.binding[token], w.db.invites[token].balanceId)
  {
    assert BoundSession(w.db, w.db.invites[token], w.binding[token]);
  }

  // A new order is answered exactly when its operation has no invite yet: an order that repeats an operation under a
  // new message id is refused, and the invite is not announced again.
  lemma OrderIsAnsweredExactlyIf(s: Flow, cfg: Settings, username: string, now: Time, id: Id, command: InviteCreate,
                                 expiresAt: Time, token: string, resultId: Id)
    requires InvitesOk(s) && id !in s.tables.inbox && token !in s.invites && resultId !in s.tables.outbox
    requires Domain.ValidateInviteCreate(command) && username != ""
    ensures var tx := HandleInviteCreate(s, cfg, username, now, id, command, expiresAt, token, resultId);
            && (tx.Commit? <==> forall other | other in s.invites ::
                                  s.invites[other].operationId != command.operationId)
            && (tx.Commit? ==> token in tx.state.invites && tx.state.invites[token].operationId == command.operationId
                               && resultId in tx.state.tables.outbox
                               && tx.state.tables.outbox[resultId].status.Pending?)
            && (tx.Rollback? ==> tx.After(s).tables.outbox == s.tables.outbox)
  {}

  // A repeated order has its answer published again exactly when the bot knows its own name and the answer is less than
  // five minutes old; the invite itself lives longer.
  lemma RepeatedOrderIsAnsweredExactlyIf(w: World, cfg: Settings, username: string, at: Time, id: Id,
                                         command: InviteCreate, expiresAt: Time, token: string, resultId: Id)
    requires WorldOk(w, cfg) && w.now <= at && id in w.db.tables.inbox
    requires w.db.tables.inbox[id].digest == InviteCreateBody(command)
    ensures var answer := w.db.tables.inbox[id].resultId;
            && answer.Some? && answer.value in w.db.tables.outbox
            && var tx := HandleInviteCreate(w.db, cfg, username, at, id, command, expiresAt, token, resultId);
            && var row := w.db.tables.outbox[answer.value];
            && (tx.Commit? && answer.value in tx.state.tables.outbox
                && Claimable(tx.state.tables.outbox[answer.value], at)
                <==> Domain.ValidateInviteCreate(command) && username != "" && at < row.expiresAt)
            && row.expiresAt == TruncateToMicros(row.createdAt + 5 * MINUTE)
  {
    assert HandledRow(w.db.tables.inbox[id], w.db.tables.outbox);
    assert RowOk(w.db.tables.outbox[w.db.tables.inbox[id].resultId.value], w.now, cfg.bound);
  }

  // No Telegram user has two sessions, in the dialogs and the projection together.
  lemma OneSessionPerUser(s: Flow, now: Time, botId: int, userId: int, a: Id, b: Id)
    requires Inv(s, now) && BelongsTo(s, a, botId, userId) && BelongsTo(s, b, botId, userId)
    ensures a == b
  {}

  predicate BelongsTo(s: Flow, id: Id, botId: int, userId: int) {
    || (id in s.inactive && s.inactive[id].botId == botId && s.inactive[id].userId == userId)
    || (id in s.projection && s.projection[id].botId == botId && s.projection[id].userId == userId)
  }

  // ---- commands ----

  // Once an attempt is closed its verify command is confirmed, dead or past its expiry: it is never claimed again.
  lemma NoVerifyOutlivesItsAttempt(w: World, cfg: Settings, op: Id)
    requires WorldOk(w, cfg) && op in w.db.attempts && !Open(w.db.attempts[op].status)
    requires w.db.attempts[op].verifyId.Some?
    ensures var id := w.db.attempts[op].verifyId.value;
            id in w.db.tables.outbox && forall t | w.now <= t :: !Claimable(w.db.tables.outbox[id], t)
  {
    assert VerifyOk(w.db, op, w.now);
    FinishedIsNeverClaimed(w.db.tables.outbox[w.db.attempts[op].verifyId.value], w.now);
  }

  // The reserve command of a closed attempt is never claimed again.
  ghost predicate ReserveIsOver(w: World, op: Id) {
    && op in w.db.attempts && w.db.attempts[op].reserveId in w.db.tables.outbox
    && (!Open(w.db.attempts[op].status) ==> forall t | w.now <= t ::
            !Claimable(w.db.tables.outbox[w.db.attempts[op].reserveId], t))
  }

  // The reserve command expires no later than the reconciler may close the attempt.
  predicate ReserveIsPrompt(s: Flow, op: Id) {
    && op in s.attempts && s.attempts[op].reserveId in s.tables.outbox
    && s.tables.outbox[s.attempts[op].reserveId].expiresAt <= s.attempts[op].createdAt + 2 * MINUTE
  }

  lemma PromptReserveIsOver(w: World, op: Id)
    requires op in w.db.attempts && ReserveOk(w.db, op, w.now)
    requires ReserveIsPrompt(w.db, op)
    ensures ReserveIsOver(w, op)
  {}

  // The attempt as it was begun, later in the run.
  lemma ReserveRowStays(w: World, moves: seq<Move>, cfg: Settings, op: Id)
    requires WorldOk(w, cfg) && EnabledRun(w, moves, cfg) && op in w.db.attempts
    ensures var a, w' := w.db.attempts[op], Run(w, moves, cfg);
            && op in w'.db.attempts && ReserveOk(w'.db, op, w'.now) && a.reserveId in w.db.tables.outbox
            && a.reserveId in w'.db.tables.outbox
            && w'.db.attempts[op].reserveId == a.reserveId && w'.db.attempts[op].createdAt == a.createdAt
            && w'.db.tables.outbox[a.reserveId].expiresAt == w.db.tables.outbox[a.reserveId].expiresAt
  {
    RunKeepsWorld(w, moves, cfg);
    var a := w.db.attempts[op];
    assert AttemptContinues(a, Run(w, moves, cfg).db.attempts[op]);
    assert ReserveOk(w.db, op, w.now);
    assert RowEvolves(w.db.tables.outbox[a.reserveId], Run(w, moves, cfg).db.tables.outbox[a.reserveId]);
  }

  lemma PromptReserveIsOverAlways(w: World, moves: seq<Move>, cfg: Settings, op: Id)
    requires WorldOk(w, cfg) && EnabledRun(w, moves, cfg) && ReserveIsPrompt(w.db, op)
    ensures ReserveIsOver(Run(w, moves, cfg), op)
  {
    ReserveRowStays(w, moves, cfg, op);
    PromptReserveIsOver(Run(w, moves, cfg), op);
  }

  // The reconciler may expire the attempt as soon as two minutes have passed since its creation.
  function ExpireAtDeadline(at: Time, op: Id): seq<Move> { [Move(at + 2 * MINUTE, Expire([op]))] }

  // A begun attempt, right after its transaction.
  predicate JustBegun(s: Flow, op: Id, at: Time, signedAt: Time) {
    && op in s.attempts && s.attempts[op].status.AwaitingReservation? && s.attempts[op].createdAt == at
    && s.attempts[op].reserveId in s.tables.outbox
    && s.tables.outbox[s.attempts[op].reserveId].status.Pending?
    && s.tables.outbox[s.attempts[op].reserveId].nextAttemptAt == at
    && s.tables.outbox[s.attempts[op].reserveId].expiresAt == TruncateToMicros(signedAt + 2 * MINUTE)
  }

  lemma BeganJustNow(s: Flow, cfg: Settings, at: Time, signedAt: Time, found: Option<Id>, wallet: string, minor: nat,
                     op: Id, reserveId: Id)
    requires op !in s.attempts && reserveId !in s.tables.outbox
    requires op in HandleWallet(s, cfg, at, signedAt, found, wallet, minor, op, reserveId).After(s).attempts
    ensures JustBegun(HandleWallet(s, cfg, at, signedAt, found, wallet, minor, op, reserveId).After(s), op, at,
                      signedAt)
  {}

  lemma LateExpiryLeavesReserve(w: World, cfg: Settings, op: Id, at: Time, signedAt: Time)
    requires ValidSettings(cfg) && w.now == at < TruncateToMicros(signedAt) && JustBegun(w.db, op, at, signedAt)
    ensures EnabledRun(w, ExpireAtDeadline(at, op), cfg)
    ensures !ReserveIsOver(Run(w, ExpireAtDeadline(at, op), cfg), op)
  {
    var move := Move(at + 2 * MINUTE, Expire([op]));
    var s' := ExpireOne(w.db, op, at + 2 * MINUTE);
    assert Expire([op]).ops[1..] == [];
    assert ExpireAttempts(w.db, [op], at + 2 * MINUTE) == s';
    var w' := Next(w, move, cfg);
    assert ExpireAtDeadline(at, op)[1..] == [];
    assert Run(w, ExpireAtDeadline(at, op), cfg) == w';
    assert Claimable(w'.db.tables.outbox[w'.db.attempts[op].reserveId], w'.now);
  }

  lemma SignedAtOnceIsPrompt(s: Flow, op: Id, at: Time, signedAt: Time)
    requires JustBegun(s, op, at, signedAt) && TruncateToMicros(signedAt) <= at
    ensures ReserveIsPrompt(s, op)
  {}

  lemma PromptReserveNeverOutlives(w: World, cfg: Settings, op: Id)
    requires WorldOk(w, cfg) && ReserveIsPrompt(w.db, op)
    ensures forall moves | EnabledRun(w, moves, cfg) :: ReserveIsOver(Run(w, moves, cfg), op)
  {
    forall moves | EnabledRun(w, moves, cfg) ensures ReserveIsOver(Run(w, moves, cfg), op) {
      PromptReserveIsOverAlways(w, moves, cfg, op);
    }
  }

  // Whatever happens after an activation has begun, its reserve command is never claimed once the attempt is closed --
  // exactly when the command was signed at the start of the transaction. Signed any later, it outlives an attempt that
  // the reconciler closes two minutes after its creation.
  lemma ReserveOutlivesExactlyIfSignedLate(w: World, move: Move, cfg: Settings)
    requires WorldOk(w, cfg) && Enabled(w, move, cfg) && move.step.SendWallet?
    requires move.step.operationId in Next(w, move, cfg).db.attempts
    ensures (forall moves | EnabledRun(Next(w, move, cfg), moves, cfg) ::
               ReserveIsOver(Run(Next(w, move, cfg), moves, cfg), move.step.operationId))
       <==> TruncateToMicros(move.step.signedAt) <= move.at
  {
    var op, signedAt := move.step.operationId, move.step.signedAt;
    StepKeepsWorld(w, move, cfg);
    BeganJustNow(w.db, cfg, move.at, signedAt, move.step.found, move.step.wallet, move.step.minor, op,
                 move.step.reserveId);
    if TruncateToMicros(signedAt) <= move.at {
      SignedAtOnceIsPrompt(Next(w, move, cfg).db, op, move.at, signedAt);
      PromptReserveNeverOutlives(Next(w, move, cfg), cfg, op);
    } else {
      LateExpiryLeavesReserve(Next(w, move, cfg), cfg, op, move.at, signedAt);
    }
  }

  // Every live command is due within the bound, and settled rows stay settled.
  lemma NoCommandIsStranded(w: World, moves: seq<Move>, cfg: Settings, id: Id)
    requires WorldOk(w, cfg) && EnabledRun(w, moves, cfg) && id in w.db.tables.outbox
    ensures var w' := Run(w, moves, cfg);
            id in w'.db.tables.outbox && RowLater(w.db.tables.outbox[id], w'.db.tables.outbox[id], w'.now, cfg.bound)
  {
    RunKeepsWorld(w, moves, cfg);
    var w' := Run(w, moves, cfg);
    RowLaterFrom(w.db.tables.outbox[id], w'.db.tables.outbox[id], w'.now, cfg.bound);
  }

  // In every reachable state, every verify command ever written is accepted by the checks of the sessions service at
  // every moment from its creation until its offer expires.
  lemma EveryVerifyCommandIsAcceptable(moves: seq<Move>, cfg: Settings, id: Id, t: Time)
    requires EnabledRun(START, moves, cfg)
    requires var outbox := Run(START, moves, cfg).db.tables.outbox;
             id in outbox && outbox[id].body.VerifyBody?
             && outbox[id].createdAt <= t < outbox[id].body.verify.offerExpiresAt
    ensures Domain.ValidateActivation(Run(START, moves, cfg).db.tables.outbox[id].body.verify, cfg.network, t)
  {
    ReachableIsOk(moves, cfg);
    assert AlwaysValid(Run(START, moves, cfg).db.tables.outbox[id].body.verify, cfg.network,
                       Run(START, moves, cfg).db.tables.outbox[id].createdAt);
  }
}
