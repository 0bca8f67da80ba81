// Exactly-once effect at the bot: repeated deliveries change nothing but the publication of results.
module BotExactlyOnce {
  import opened Base
  import opened Contracts
  import opened Messages
  import opened MessagesAlike
  import opened Bot
  import opened BotInvariant
  import opened BotRuns
  import Amount
  import Domain

  ghost predicate SameCore(a: Flow, b: Flow) {
    a == b.(tables := a.tables) && SameTables(a.tables, b.tables)
  }

  predicate IsDuplicate(s: Flow, step: Step) {
    match step
    case DeliverInviteCreate(id, _, _, _, _, _) => id in s.tables.inbox
    case DeliverReserved(id, _, _) => id in s.tables.inbox
    case DeliverReserveRejected(id, _, _) => id in s.tables.inbox
    case DeliverPayment(id, _, _, _) => id in s.tables.inbox
    case DeliverActivated(id, _, _) => id in s.tables.inbox
    case DeliverRejected(id, _, _) => id in s.tables.inbox
    case _ => false
  }

  function WithoutDuplicates(w: World, moves: seq<Move>, cfg: Settings): seq<Move>
    decreases |moves|
  {
    if moves == [] then []
    else
      var rest := WithoutDuplicates(Next(w, moves[0], cfg), moves[1..], cfg);
      if IsDuplicate(w.db, moves[0].step) then rest else [moves[0]] + rest
  }

  // ---- a duplicate only asks for a result to be published again ----

  // Every other message that is repeated changes nothing at all.
  lemma RepeatedResultChangesNothing(s: Flow, cfg: Settings, now: Time, step: Step)
    requires IsDuplicate(s, step) && !step.DeliverInviteCreate?
    ensures NextDb(s, cfg, now, step) == s
  {}

  // Equal, but a live RESULT row may have become due at once.
  predicate SameButPublication(row: OutboxRow, row': OutboxRow) {
    || row' == row
    || (row.kind.Result? && !Settled(row)
        && row' == row.(status := Pending, nextAttemptAt := row'.nextAttemptAt, leaseUntil := None))
  }

  ghost predicate OnlyPublishes(s: Flow, s': Flow) {
    && s' == s.(tables := s.tables.(outbox := s'.tables.outbox)) && s'.tables.outbox.Keys == s.tables.outbox.Keys
    && forall row | row in s.tables.outbox :: SameButPublication(s.tables.outbox[row], s'.tables.outbox[row])
  }

  // The answer that a repeated message asks for: only an order has one, and only if it would be taken again.
  function AnswerOf(s: Flow, step: Step): Option<Id> {
    if IsDuplicate(s, step) && step.DeliverInviteCreate? && Domain.ValidateInviteCreate(step.command)
       && step.username != "" && s.tables.inbox[step.id].digest == InviteCreateBody(step.command)
    then s.tables.inbox[step.id].resultId else None
  }

  lemma RepeatedOrder(s: Flow, cfg: Settings, now: Time, step: Step)
    requires InboxOk(s) && IsDuplicate(s, step) && step.DeliverInviteCreate?
    ensures NextDb(s, cfg, now, step)
         == match AnswerOf(s, step) case None => s case Some(r) => s.(tables := Requeue(s.tables, r, now))
  {
    assert HandledRow(s.tables.inbox[step.id], s.tables.outbox);
  }

  lemma RequeueOnlyPublishes(s: Flow, id: Id, now: Time)
    requires id in s.tables.outbox ==> s.tables.outbox[id].kind.Result?
    ensures OnlyPublishes(s, s.(tables := Requeue(s.tables, id, now)))
  {}

  // A repeated order has its answer published again, if it is neither dead nor confirmed; nothing else ever happens.
  lemma DuplicateOnlyPublishes(s: Flow, cfg: Settings, now: Time, step: Step)
    requires InboxOk(s) && IsDuplicate(s, step)
    ensures OnlyPublishes(s, NextDb(s, cfg, now, step))
    ensures NextDb(s, cfg, now, step)
         == match AnswerOf(s, step) case None => s case Some(r) => s.(tables := Requeue(s.tables, r, now))
  {
    if step.DeliverInviteCreate? {
      RepeatedOrder(s, cfg, now, step);
      var answer := AnswerOf(s, step);
      assert HandledRow(s.tables.inbox[step.id], s.tables.outbox);
      if answer.Some? { RequeueOnlyPublishes(s, answer.value, now); }
    } else {
      RepeatedResultChangesNothing(s, cfg, now, step);
    }
  }

  lemma DuplicateKeepsCore(s: Flow, cfg: Settings, now: Time, step: Step)
    requires InboxOk(s) && IsDuplicate(s, step)
    ensures SameCore(NextDb(s, cfg, now, step), s)
  {
    DuplicateOnlyPublishes(s, cfg, now, step);
    var s' := NextDb(s, cfg, now, step);
    forall id | id in s.tables.outbox ensures SameRow(s'.tables.outbox[id], s.tables.outbox[id]) {
      assert SameButPublication(s.tables.outbox[id], s'.tables.outbox[id]);
    }
  }

  // ---- every step acts alike on databases with the same core ----

  ghost predicate SameOutcome(x: Tx<Flow>, y: Tx<Flow>) {
    (x.Rollback? && y.Rollback?) || (x.Commit? && y.Commit? && SameCore(x.state, y.state))
  }

  lemma MoveOnAlike(a: Flow, b: Flow, t: Tables, u: Tables, now: Time, id: Id, op: Id, attempt': Attempt,
                    dialog: Dialog, confirm: Option<Id>)
    requires SameCore(a, b) && SameTables(t, u)
    ensures SameOutcome(MoveOn(a, t, now, id, op, attempt', dialog, confirm),
                        MoveOn(b, u, now, id, op, attempt', dialog, confirm))
  {
    var t1 := if confirm.Some? then Confirm(t, confirm.value, now) else t;
    var u1 := if confirm.Some? then Confirm(u, confirm.value, now) else u;
    if confirm.Some? { ConfirmAlike(t, u, confirm.value, now); }
    AcknowledgeAlike(t1, u1, id, now);
  }

  ghost predicate SameReception(x: Reception, y: Reception) {
    match x
    case Ignored(tx) => y.Ignored? && SameOutcome(tx, y.tx)
    case Received(t, attempt) => y.Received? && SameTables(t, y.tables) && attempt == y.attempt
  }

  lemma ReceiveAlike(a: Flow, b: Flow, now: Time, id: Id, digest: Body, expiresAt: Time, op: Id,
                     expected: AttemptStatus)
    requires SameCore(a, b)
    ensures SameReception(Receive(a, now, id, digest, expiresAt, op, expected),
                          Receive(b, now, id, digest, expiresAt, op, expected))
  {}

  lemma ReservedAlike(a: Flow, b: Flow, now: Time, id: Id, result: ActivationReserved, expiresAt: Time)
    requires SameCore(a, b)
    ensures SameOutcome(ApplyReserved(a, now, id, result, expiresAt), ApplyReserved(b, now, id, result, expiresAt))
  {
    var op := result.operationId;
    var x := Receive(a, now, id, ReservedBody(result), expiresAt, op, AwaitingReservation);
    var y := Receive(b, now, id, ReservedBody(result), expiresAt, op, AwaitingReservation);
    ReceiveAlike(a, b, now, id, ReservedBody(result), expiresAt, op, AwaitingReservation);
    if x.Received? && ReservationAccepted(result, x.attempt.amount, now) {
      MoveOnAlike(a, b, x.tables, y.tables, now, id, op, Reserve(x.attempt, result, now), NeedsPayment,
                  Some(x.attempt.reserveId));
    }
  }

  lemma ReserveRejectedAlike(a: Flow, b: Flow, now: Time, id: Id, rejection: Rejection, expiresAt: Time)
    requires SameCore(a, b)
    ensures SameOutcome(ApplyReserveRejected(a, now, id, rejection, expiresAt),
                        ApplyReserveRejected(b, now, id, rejection, expiresAt))
  {
    var op := rejection.operationId;
    var x := Receive(a, now, id, ReserveRejectedBody(rejection), expiresAt, op, AwaitingReservation);
    var y := Receive(b, now, id, ReserveRejectedBody(rejection), expiresAt, op, AwaitingReservation);
    ReceiveAlike(a, b, now, id, ReserveRejectedBody(rejection), expiresAt, op, AwaitingReservation);
    if x.Received? {
      MoveOnAlike(a, b, x.tables, y.tables, now, id, op, Close(x.attempt, AttemptRejected, Some(rejection.code), now),
                  DialogRejected,
                  Some(x.attempt.reserveId));
    }
  }

  lemma RejectedAlike(a: Flow, b: Flow, now: Time, id: Id, rejection: Rejection, expiresAt: Time)
    requires SameCore(a, b)
    ensures SameOutcome(CompleteRejected(a, now, id, rejection, expiresAt),
                        CompleteRejected(b, now, id, rejection, expiresAt))
  {
    var op := rejection.operationId;
    var x := Receive(a, now, id, ActivationRejectedBody(rejection), expiresAt, op, AwaitingVerification);
    var y := Receive(b, now, id, ActivationRejectedBody(rejection), expiresAt, op, AwaitingVerification);
    ReceiveAlike(a, b, now, id, ActivationRejectedBody(rejection), expiresAt, op, AwaitingVerification);
    if x.Received? {
      MoveOnAlike(a, b, x.tables, y.tables, now, id, op, Close(x.attempt, AttemptRejected, Some(rejection.code), now),
                  DialogRejected,
                  x.attempt.verifyId);
    }
  }

  lemma SendAlike(a: Flow, b: Flow, x: Tx<Tables>, y: Tx<Tables>, now: Time, id: Id, attempt: Attempt,
                  payment: PaymentConfirmed, verifyId: Id)
    requires SameCore(a, b) && SameTablesOutcome(x, y)
    ensures SameOutcome(SendVerify(a, x, now, id, attempt, payment, verifyId),
                        SendVerify(b, y, now, id, attempt, payment, verifyId))
  {
    if x.Commit? {
      MoveOnAlike(a, b, x.state, y.state, now, id, payment.operationId,
                  Paid(attempt, verifyId, payment.transactionId, now), NeedsVerification, None);
    }
  }

  lemma InsertVerifyAlike(t: Tables, u: Tables, cfg: Settings, now: Time, op: Id, attempt: Attempt, offer: Offer,
                          conversation: Conversation, transactionId: string, verifyId: Id)
    requires SameTables(t, u)
    ensures SameTablesOutcome(InsertVerify(t, cfg, now, op, attempt, offer, conversation, transactionId, verifyId),
                              InsertVerify(u, cfg, now, op, attempt, offer, conversation, transactionId, verifyId))
  {
    InsertAlike(t, u, verifyId, VerifyBody(VerifyCommand(attempt, offer, conversation, op, transactionId, cfg.network)),
                Command,
                now, offer.expiresAt + 30 * MINUTE);
  }

  lemma PayAlike(a: Flow, b: Flow, t: Tables, u: Tables, cfg: Settings, now: Time, id: Id, attempt: Attempt,
                 payment: PaymentConfirmed, verifyId: Id)
    requires SameCore(a, b) && SameTables(t, u)
    ensures SameOutcome(Pay(a, t, cfg, now, id, attempt, payment, verifyId),
                        Pay(b, u, cfg, now, id, attempt, payment, verifyId))
  {
    if PaymentTaken(a, attempt, payment, now) {
      var offer, conversation := attempt.offer.value, a.inactive[attempt.sessionId];
      var x := InsertVerify(t, cfg, now, payment.operationId, attempt, offer, conversation, payment.transactionId,
                            verifyId);
      var y := InsertVerify(u, cfg, now, payment.operationId, attempt, offer, conversation, payment.transactionId,
                            verifyId);
      InsertVerifyAlike(t, u, cfg, now, payment.operationId, attempt, offer, conversation, payment.transactionId,
                        verifyId);
      SendAlike(a, b, x, y, now, id, attempt, payment, verifyId);
    }
  }

  lemma PaymentAlike(a: Flow, b: Flow, cfg: Settings, now: Time, id: Id, payment: PaymentConfirmed, expiresAt: Time,
                     verifyId: Id)
    requires SameCore(a, b)
    ensures SameOutcome(ApplyPayment(a, cfg, now, id, payment, expiresAt, verifyId),
                        ApplyPayment(b, cfg, now, id, payment, expiresAt, verifyId))
  {
    var op := payment.operationId;
    var x := Receive(a, now, id, PaymentBody(payment), expiresAt, op, AwaitingPayment);
    var y := Receive(b, now, id, PaymentBody(payment), expiresAt, op, AwaitingPayment);
    ReceiveAlike(a, b, now, id, PaymentBody(payment), expiresAt, op, AwaitingPayment);
    if x.Received? { PayAlike(a, b, x.tables, y.tables, cfg, now, id, x.attempt, payment, verifyId); }
  }

  lemma ActivateAlike(a: Flow, b: Flow, t: Tables, u: Tables, now: Time, id: Id, attempt: Attempt, activated: Activated)
    requires SameCore(a, b) && SameTables(t, u)
    ensures SameOutcome(Activate(a, t, now, id, attempt, activated), Activate(b, u, now, id, attempt, activated))
  {
    var t1 := if attempt.verifyId.Some? then Confirm(t, attempt.verifyId.value, now) else t;
    var u1 := if attempt.verifyId.Some? then Confirm(u, attempt.verifyId.value, now) else u;
    if attempt.verifyId.Some? { ConfirmAlike(t, u, attempt.verifyId.value, now); }
    AcknowledgeAlike(t1, u1, id, now);
  }

  lemma ActivatedAlike(a: Flow, b: Flow, now: Time, id: Id, activated: Activated, expiresAt: Time)
    requires SameCore(a, b)
    ensures SameOutcome(CompleteActivated(a, now, id, activated, expiresAt),
                        CompleteActivated(b, now, id, activated, expiresAt))
  {
    var op := activated.operationId;
    var x := Receive(a, now, id, ActivatedBody(activated), expiresAt, op, AwaitingVerification);
    var y := Receive(b, now, id, ActivatedBody(activated), expiresAt, op, AwaitingVerification);
    ReceiveAlike(a, b, now, id, ActivatedBody(activated), expiresAt, op, AwaitingVerification);
    if x.Received? { ActivateAlike(a, b, x.tables, y.tables, now, id, x.attempt, activated); }
  }

  lemma {:induction false} ExpireAlike(a: Flow, b: Flow, ops: seq<Id>, now: Time)
    requires SameCore(a, b)
    ensures SameCore(ExpireAttempts(a, ops, now), ExpireAttempts(b, ops, now))
    decreases |ops|
  {
    if ops != [] { ExpireAlike(ExpireOne(a, ops[0], now), ExpireOne(b, ops[0], now), ops[1..], now); }
  }

  lemma AddInviteAlike(a: Flow, b: Flow, t: Tables, u: Tables, now: Time, id: Id, command: InviteCreate, ttl: Time,
                       token: string, link: string, resultId: Id)
    requires SameCore(a, b) && SameTables(t, u)
    ensures SameOutcome(AddInvite(a, t, now, id, command, ttl, token, link, resultId),
                        AddInvite(b, u, now, id, command, ttl, token, link, resultId))
  {
    var body := InviteCreatedBody(InviteCreated(command.operationId, token, link, now + ttl));
    var x, y := Insert(t, resultId, body, Result, now, now + 5 * MINUTE),
                Insert(u, resultId, body, Result, now, now + 5 * MINUTE);
    InsertAlike(t, u, resultId, body, Result, now, now + 5 * MINUTE);
    if x.Commit? { CompleteAlike(x.state, y.state, id, resultId, now); }
  }

  lemma OrderAlike(a: Flow, b: Flow, cfg: Settings, username: string, now: Time, id: Id, command: InviteCreate,
                   expiresAt: Time, token: string, resultId: Id)
    requires SameCore(a, b) && id !in a.tables.inbox
    ensures SameOutcome(HandleInviteCreate(a, cfg, username, now, id, command, expiresAt, token, resultId),
                        HandleInviteCreate(b, cfg, username, now, id, command, expiresAt, token, resultId))
  {
    var t, u := Register(a.tables, id, InviteCreateBody(command), expiresAt).0,
                Register(b.tables, id, InviteCreateBody(command), expiresAt).0;
    var ttl := if command.requestedTtlSeconds != 0 then command.requestedTtlSeconds * SECOND else cfg.inviteTtl;
    AddInviteAlike(a, b, t, u, now, id, command, ttl, token, DeepLink(username, token), resultId);
  }

  lemma BeginAlike(a: Flow, b: Flow, now: Time, signedAt: Time, found: Option<Id>, wallet: string, amount: string,
                   network: string, op: Id, reserveId: Id)
    requires SameCore(a, b)
    ensures SameOutcome(BeginActivation(a, now, signedAt, found, wallet, amount, network, op, reserveId),
                        BeginActivation(b, now, signedAt, found, wallet, amount, network, op, reserveId))
  {
    if found.Some? && found.value in a.inactive {
      var body := ReserveBody(ActivationReserve(op, a.inactive[found.value].balanceId, found.value, wallet, amount,
                                                "USDT", network));
      InsertAlike(a.tables, b.tables, reserveId, body, Command, now, signedAt + 2 * MINUTE);
    }
  }

  lemma ConsumeAlike(a: Flow, b: Flow, cfg: Settings, now: Time, step: Step)
    requires SameCore(a, b) && step.Consume?
    ensures SameCore(NextDb(a, cfg, now, step), NextDb(b, cfg, now, step))
    ensures NextDb(a, cfg, now, step) == a <==> NextDb(b, cfg, now, step) == b
  {}

  lemma StepAlike(a: Flow, b: Flow, cfg: Settings, now: Time, step: Step)
    requires SameCore(a, b) && !IsDuplicate(a, step)
    ensures SameCore(NextDb(a, cfg, now, step), NextDb(b, cfg, now, step))
  {
    match step {
      case DeliverInviteCreate(id, command, expiresAt, username, token, resultId) =>
        OrderAlike(a, b, cfg, username, now, id, command, expiresAt, token, resultId);
      case Consume(_, _, _, _, _, _) => ConsumeAlike(a, b, cfg, now, step);
      case SendWallet(_, _, found, wallet, minor, signedAt, op, reserveId) =>
        BeginAlike(a, b, now, signedAt, found, wallet, Amount.FormatAmount(minor, cfg.scale), cfg.network, op,
                   reserveId);
      case DeliverReserved(id, reserved, expiresAt) => ReservedAlike(a, b, now, id, reserved, expiresAt);
      case DeliverReserveRejected(id, rejection, expiresAt) =>
        ReserveRejectedAlike(a, b, now, id, rejection, expiresAt);
      case DeliverPayment(id, payment, expiresAt, verifyId) =>
        PaymentAlike(a, b, cfg, now, id, payment, expiresAt, verifyId);
      case DeliverActivated(id, activated, expiresAt) => ActivatedAlike(a, b, now, id, activated, expiresAt);
      case DeliverRejected(id, rejection, expiresAt) => RejectedAlike(a, b, now, id, rejection, expiresAt);
      case Expire(ops) => ExpireAlike(a, b, ops, now);
      case Publish(publisher) => PublishAlike(a.tables, b.tables, publisher, now);
    }
  }

  // ---- runs ----

  ghost predicate SameWorld(v: World, w: World) {
    SameCore(v.db, w.db) && v.binding == w.binding && w.now <= v.now
  }

  lemma MoveAlike(v: World, w: World, move: Move, cfg: Settings)
    requires SameWorld(v, w) && !IsDuplicate(v.db, move.step) && Enabled(v, move, cfg)
    ensures Enabled(w, move, cfg) && SameWorld(Next(v, move, cfg), Next(w, move, cfg))
  {
    StepAlike(v.db, w.db, cfg, move.at, move.step);
    if move.step.Consume? { ConsumeAlike(v.db, w.db, cfg, move.at, move.step); }
  }

  lemma DuplicateLeavesWorld(v: World, w: World, move: Move, cfg: Settings)
    requires SameWorld(v, w) && InboxOk(v.db) && IsDuplicate(v.db, move.step) && Enabled(v, move, cfg)
    ensures SameWorld(Next(v, move, cfg), w)
  {
    DuplicateKeepsCore(v.db, cfg, move.at, move.step);
    SameCommandsTransitive(Next(v, move, cfg).db.tables.outbox, v.db.tables.outbox, w.db.tables.outbox);
  }

  lemma {:induction false} RunAlike(v: World, w: World, moves: seq<Move>, cfg: Settings)
    requires SameWorld(v, w) && WorldOk(v, cfg) && EnabledRun(v, moves, cfg)
    ensures EnabledRun(w, WithoutDuplicates(v, moves, cfg), cfg)
    ensures SameWorld(Run(v, moves, cfg), Run(w, WithoutDuplicates(v, moves, cfg), cfg))
    decreases |moves|
  {
    if moves != [] {
      var v' := Next(v, moves[0], cfg);
      StepKeepsWorld(v, moves[0], cfg);
      if IsDuplicate(v.db, moves[0].step) {
        DuplicateLeavesWorld(v, w, moves[0], cfg);
        RunAlike(v', w, moves[1..], cfg);
      } else {
        MoveAlike(v, w, moves[0], cfg);
        RunAlike(v', Next(w, moves[0], cfg), moves[1..], cfg);
        assert ([moves[0]] + WithoutDuplicates(v', moves[1..], cfg))[1..] == WithoutDuplicates(v', moves[1..], cfg);
      }
    }
  }

  // Dropping every delivery whose message id is already in the inbox gives another legal run that ends with the same
  // inbox, invites, conversations, attempts, projection and command rows.
  lemma DuplicatesHaveNoEffect(moves: seq<Move>, cfg: Settings)
    requires EnabledRun(START, moves, cfg)
    ensures var reduced := WithoutDuplicates(START, moves, cfg);
            EnabledRun(START, reduced, cfg) && SameCore(Run(START, moves, cfg).db, Run(START, reduced, cfg).db)
  {
    EmptyInv(cfg.network);
    RunAlike(START, START, moves, cfg);
  }
}
