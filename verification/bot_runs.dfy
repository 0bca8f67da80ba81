// Runs of the bot: any finite sequence of enabled steps, with lost, repeated and reordered deliveries.
module BotRuns {
  import opened Base
  import opened Contracts
  import opened Messages
  import opened Bot
  import opened BotInvariant
  import opened BotHistory
  import opened BotSteps
  import opened BotMachine
  import opened BotData
  import opened BotContract
  import Amount
  import Domain

  // `binding` remembers which session consumed which invite.
  datatype World = World(db: Flow, now: Time, binding: map<string, Id>)
  datatype Move = Move(at: Time, step: Step)

  const START: World := World(EMPTY, 0, map[])

  // Generated ids are new, the clock does not run backwards, amounts are drawn from the configured range;
  // anything may be delivered.
  ghost predicate Enabled(w: World, move: Move, cfg: Settings) {
    && w.now <= move.at && ValidSettings(cfg)
    && match move.step
       case DeliverInviteCreate(_, _, _, _, _, resultId) => resultId !in w.db.tables.outbox
       case Consume(_, _, _, _, _, sessionId) => FreshSession(w.db, sessionId)
       case SendWallet(botId, userId, found, _, minor, signedAt, operationId, reserveId) =>
         && Finds(w.db, botId, userId, found) && cfg.amountMin <= minor <= cfg.amountMax && move.at <= signedAt
         && operationId !in w.db.attempts && reserveId !in w.db.tables.outbox
       case DeliverPayment(_, _, _, verifyId) => verifyId !in w.db.tables.outbox
       case Publish(publisher) => PublisherEnabled(publisher, cfg.bound)
       case _ => true
  }

  function Next(w: World, move: Move, cfg: Settings): World {
    var db := NextDb(w.db, cfg, move.at, move.step);
    World(db, move.at,
          if move.step.Consume? && db != w.db then w.binding[move.step.token := move.step.sessionId] else w.binding)
  }

  function Run(w: World, moves: seq<Move>, cfg: Settings): World
    decreases |moves|
  {
    if moves == [] then w else Run(Next(w, moves[0], cfg), moves[1..], cfg)
  }

  ghost predicate EnabledRun(w: World, moves: seq<Move>, cfg: Settings)
    decreases |moves|
  {
    moves == [] || (Enabled(w, moves[0], cfg) && EnabledRun(Next(w, moves[0], cfg), moves[1..], cfg))
  }

  // ---- which session an invite was for ----

  predicate BoundSession(s: Flow, invite: Invite, id: Id) {
    && invite.status.InviteConsumed?
    && (id in s.inactive || id in s.projection)
    && (id in s.inactive ==> s.inactive[id].balanceId == invite.balanceId)
    && (id in s.projection ==> s.projection[id].balance == Fingerprint(invite.balanceId))
    && invite.consumedBy == if id in s.inactive then Some(id) else None
  }

  ghost predicate BindingOk(s: Flow, binding: map<string, Id>) {
    && (forall token | token in binding :: token in s.invites && BoundSession(s, s.invites[token], binding[token]))
    && (forall token | token in s.invites && token !in binding :: s.invites[token].status.InviteActive?
                                                                  && s.invites[token].consumedBy.None?)
    && (forall id | id in s.inactive || id in s.projection :: id in binding.Values)
    && (forall a, b | a in binding && b in binding && binding[a] == binding[b] :: a == b)
  }

  // No session appears, invites are only added, and a name is cleared exactly when its session leaves the dialogs.
  ghost predicate InvitesFollow(s: Flow, s': Flow) {
    && (forall id | id in s'.inactive || id in s'.projection :: id in s.inactive || id in s.projection)
    && (forall token | token in s'.invites && token !in s.invites ::
          s'.invites[token].status.InviteActive? && s'.invites[token].consumedBy.None?)
    && (forall token | token in s.invites :: token in s'.invites
                                             && InviteFollows(s.invites[token], s'.invites[token],
                                                              s.inactive.Keys - s'.inactive.Keys))
  }

  predicate InviteFollows(i: Invite, i': Invite, left: set<Id>) {
    && i'.status == i.status && i'.balanceId == i.balanceId
    && i'.consumedBy == if i.consumedBy.Some? && i.consumedBy.value in left then None else i.consumedBy
  }

  lemma BindingStays(s: Flow, s': Flow, binding: map<string, Id>)
    requires BindingOk(s, binding) && SessionsContinue(s, s') && InvitesFollow(s, s')
    ensures BindingOk(s', binding)
  {}

  lemma EarlierStay(s: Flow, s': Flow, binding: map<string, Id>, token: string, id: Id)
    requires forall other | other in binding :: other in s.invites && BoundSession(s, s.invites[other], binding[other])
    requires Binds(s, s', token, id)
    ensures forall other | other in binding ::
              other in s'.invites && BoundSession(s', s'.invites[other], binding[other]) && binding[other] != id
              && other != token
  {}

  lemma BindingGrows(s: Flow, s': Flow, binding: map<string, Id>, token: string, id: Id)
    requires BindingOk(s, binding) && Binds(s, s', token, id)
    ensures BindingOk(s', binding[token := id])
  {
    EarlierStay(s, s', binding, token, id);
    AllBound(s, s', binding, token, id);
  }

  lemma AllBound(s: Flow, s': Flow, binding: map<string, Id>, token: string, id: Id)
    requires token !in binding && (forall o | o in s.inactive || o in s.projection :: o in binding.Values)
    requires Binds(s, s', token, id)
    ensures forall o | o in s'.inactive || o in s'.projection :: o in binding[token := id].Values
  {
    var after := binding[token := id];
    forall o | o in s'.inactive || o in s'.projection ensures o in after.Values {
      if o == id { assert after[token] == id; }
      else {
        var other :| other in binding && binding[other] == o;
        assert after[other] == o;
      }
    }
  }

  lemma IgnoredFollows(s: Flow, now: Time, id: Id, digest: Body, expiresAt: Time, op: Id, expected: AttemptStatus)
    requires Receive(s, now, id, digest, expiresAt, op, expected).Ignored?
    ensures InvitesFollow(s, Receive(s, now, id, digest, expiresAt, op, expected).tx.After(s))
  {}

  lemma ReservedFollows(s: Flow, now: Time, id: Id, result: ActivationReserved, expiresAt: Time)
    ensures InvitesFollow(s, ApplyReserved(s, now, id, result, expiresAt).After(s))
  {}

  lemma ReserveRejectedFollows(s: Flow, now: Time, id: Id, rejection: Rejection, expiresAt: Time)
    ensures InvitesFollow(s, ApplyReserveRejected(s, now, id, rejection, expiresAt).After(s))
  {}

  lemma RejectedFollows(s: Flow, now: Time, id: Id, rejection: Rejection, expiresAt: Time)
    ensures InvitesFollow(s, CompleteRejected(s, now, id, rejection, expiresAt).After(s))
  {}

  lemma PaymentFollows(s: Flow, cfg: Settings, now: Time, id: Id, payment: PaymentConfirmed, expiresAt: Time,
                       verifyId: Id)
    ensures InvitesFollow(s, ApplyPayment(s, cfg, now, id, payment, expiresAt, verifyId).After(s))
  {}

  lemma ActivatedFollows(s: Flow, now: Time, id: Id, activated: Activated, expiresAt: Time)
    requires ConversationsOk(s)
    ensures InvitesFollow(s, CompleteActivated(s, now, id, activated, expiresAt).After(s))
  {
    var r := Receive(s, now, id, ActivatedBody(activated), expiresAt, activated.operationId, AwaitingVerification);
    if r.Ignored? { IgnoredFollows(s, now, id, ActivatedBody(activated), expiresAt, activated.operationId,
                                   AwaitingVerification); }
    else if CompleteActivated(s, now, id, activated, expiresAt).Commit? {
      assert r.attempt.sessionId in s.inactive && ConversationOk(s, r.attempt.sessionId);
      var s' := CompleteActivated(s, now, id, activated, expiresAt).state;
      assert s.inactive.Keys - s'.inactive.Keys == {r.attempt.sessionId};
    }
  }

  lemma {:induction false} ExpireFollows(s: Flow, ops: seq<Id>, now: Time)
    ensures var s' := ExpireAttempts(s, ops, now);
            s'.inactive.Keys == s.inactive.Keys && s'.projection == s.projection && s'.invites == s.invites
    decreases |ops|
  {
    if ops != [] {
      var s1 := ExpireOne(s, ops[0], now);
      assert s1.inactive.Keys == s.inactive.Keys;
      ExpireFollows(s1, ops[1..], now);
    }
  }

  lemma CreateInviteFollows(s: Flow, now: Time, id: Id, command: InviteCreate, expiresAt: Time, ttl: Time,
                            token: string, link: string, resultId: Id)
    ensures InvitesFollow(s, CreateInvite(s, now, id, command, expiresAt, ttl, token, link, resultId).After(s))
  {}

  lemma BeginFollows(s: Flow, now: Time, signedAt: Time, found: Option<Id>, wallet: string, amount: string,
                     network: string, op: Id, reserveId: Id)
    ensures InvitesFollow(s, BeginActivation(s, now, signedAt, found, wallet, amount, network, op, reserveId).After(s))
  {}

  // ---- the whole state of a run ----

  ghost predicate WorldOk(w: World, cfg: Settings) {
    && Inv(w.db, w.now) && DataOk(w.db, cfg.network, w.now) && OutboxOk(w.db.tables.outbox, w.now, cfg.bound)
    && BindingOk(w.db, w.binding) && VerifyRowsValid(w.db, cfg.network)
  }

  lemma AttemptNetwork(s: Flow, network: string, now: Time, op: Id)
    requires DataOk(s, network, now) && op in s.attempts
    ensures s.attempts[op].network == network
  {}

  lemma PublishKeepsInv(s: Flow, now: Time, later: Time, publisher: PublisherStep, bound: Time)
    requires Inv(s, now) && now <= later && OutboxOk(s.tables.outbox, later, bound) && LEASE <= bound
    requires PublisherEnabled(publisher, bound)
    ensures Good(s, s.(tables := s.tables.(outbox := PublisherNext(s.tables.outbox, publisher, later))), later)
  {
    PublisherKeepsRows(s.tables.outbox, publisher, later, bound);
    TablesChangeKeepsInv(s, s.(tables := s.tables.(outbox := PublisherNext(s.tables.outbox, publisher, later))), 0, now,
                         later);
  }

  lemma InviteKeepsInv(s: Flow, cfg: Settings, username: string, now: Time, later: Time, id: Id, command: InviteCreate,
                       expiresAt: Time, token: string, resultId: Id)
    requires Inv(s, now) && now <= later && resultId !in s.tables.outbox
    ensures Good(s, HandleInviteCreate(s, cfg, username, later, id, command, expiresAt, token, resultId).After(s),
                 later)
  {
    if !Domain.ValidateInviteCreate(command) || username == "" {
      TimePassesInv(s, now, later);
    } else {
      var ttl := if command.requestedTtlSeconds != 0 then command.requestedTtlSeconds * SECOND else cfg.inviteTtl;
      assert LinksTo(DeepLink(username, token), token);
      InviteCreateKeepsInv(s, now, later, id, command, expiresAt, ttl, token, DeepLink(username, token), resultId);
    }
  }

  lemma WalletKeepsInv(s: Flow, cfg: Settings, now: Time, later: Time, signedAt: Time, found: Option<Id>,
                       wallet: string, minor: nat, op: Id, reserveId: Id)
    requires Inv(s, now) && now <= later <= signedAt && op !in s.attempts && reserveId !in s.tables.outbox
    ensures Good(s, HandleWallet(s, cfg, later, signedAt, found, wallet, minor, op, reserveId).After(s), later)
  {
    TimePassesInv(s, now, later);
    BeginActivationKeepsInv(s, now, later, signedAt, found, wallet, Amount.FormatAmount(minor, cfg.scale), cfg.network,
                            op, reserveId);
  }

  lemma PaymentStepKeepsInv(s: Flow, cfg: Settings, now: Time, later: Time, id: Id, payment: PaymentConfirmed,
                            expiresAt: Time, verifyId: Id)
    requires Inv(s, now) && DataOk(s, cfg.network, now) && now <= later && verifyId !in s.tables.outbox
    ensures Good(s, ApplyPayment(s, cfg, later, id, payment, expiresAt, verifyId).After(s), later)
  {
    if payment.operationId in s.attempts { AttemptNetwork(s, cfg.network, now, payment.operationId); }
    PaymentKeepsInv(s, cfg, now, later, id, payment, expiresAt, verifyId);
  }

  lemma StepKeepsInv(w: World, move: Move, cfg: Settings)
    requires Inv(w.db, w.now) && DataOk(w.db, cfg.network, w.now) && OutboxOk(w.db.tables.outbox, w.now, cfg.bound)
    requires Enabled(w, move, cfg)
    ensures Good(w.db, Next(w, move, cfg).db, move.at)
  {
    var s, now, at := w.db, w.now, move.at;
    match move.step {
      case DeliverInviteCreate(id, command, expiresAt, username, token, resultId) =>
        InviteKeepsInv(s, cfg, username, now, at, id, command, expiresAt, token, resultId);
      case Consume(botId, userId, chatId, displayLabel, token, sessionId) =>
        ConsumeKeepsInv(s, now, at, botId, userId, chatId, displayLabel, token, sessionId);
      case SendWallet(_, _, found, wallet, minor, signedAt, op, reserveId) =>
        WalletKeepsInv(s, cfg, now, at, signedAt, found, wallet, minor, op, reserveId);
      case DeliverReserved(id, reserved, expiresAt) => ReservedKeepsInv(s, now, at, id, reserved, expiresAt);
      case DeliverReserveRejected(id, rejection, expiresAt) =>
        ReserveRejectedKeepsInv(s, now, at, id, rejection, expiresAt);
      case DeliverPayment(id, payment, expiresAt, verifyId) =>
        PaymentStepKeepsInv(s, cfg, now, at, id, payment, expiresAt, verifyId);
      case DeliverActivated(id, activated, expiresAt) => ActivatedKeepsInv(s, now, at, id, activated, expiresAt);
      case DeliverRejected(id, rejection, expiresAt) => RejectedKeepsInv(s, now, at, id, rejection, expiresAt);
      case Expire(ops) => ExpireKeepsInv(s, ops, now, at);
      case Publish(publisher) =>
        TimePasses(s.tables.outbox, now, at, cfg.bound);
        PublishKeepsInv(s, now, at, publisher, cfg.bound);
    }
  }

  lemma StepKeepsData(w: World, move: Move, cfg: Settings)
    requires DataOk(w.db, cfg.network, w.now) && Enabled(w, move, cfg)
    ensures DataOk(Next(w, move, cfg).db, cfg.network, move.at)
  {
    var s, at := w.db, move.at;
    TimePassesData(s, cfg.network, w.now, at);
    match move.step {
      case DeliverInviteCreate(id, command, expiresAt, username, token, resultId) =>
        InviteKeepsData(s, cfg, username, at, id, command, expiresAt, token, resultId);
      case Consume(botId, userId, chatId, displayLabel, token, sessionId) =>
        ConsumeKeepsData(s, cfg.network, at, botId, userId, chatId, displayLabel, token, sessionId);
      case SendWallet(_, _, found, wallet, minor, signedAt, op, reserveId) =>
        WalletKeepsData(s, cfg, at, signedAt, found, wallet, minor, op, reserveId);
      case DeliverReserved(id, reserved, expiresAt) => ReservedKeepsData(s, cfg.network, at, id, reserved, expiresAt);
      case DeliverReserveRejected(id, rejection, expiresAt) =>
        ReserveRejectedKeepsData(s, cfg.network, at, id, rejection, expiresAt);
      case DeliverPayment(id, payment, expiresAt, verifyId) =>
        PaymentKeepsData(s, cfg, at, id, payment, expiresAt, verifyId);
      case DeliverActivated(id, activated, expiresAt) =>
        ActivatedKeepsData(s, cfg.network, at, id, activated, expiresAt);
      case DeliverRejected(id, rejection, expiresAt) => RejectedKeepsData(s, cfg.network, at, id, rejection, expiresAt);
      case Expire(ops) => ExpireKeepsData(s, ops, cfg.network, at);
      case Publish(publisher) =>
    }
  }

  lemma InviteKeepsData(s: Flow, cfg: Settings, username: string, now: Time, id: Id, command: InviteCreate,
                        expiresAt: Time, token: string, resultId: Id)
    requires DataOk(s, cfg.network, now)
    ensures DataOk(HandleInviteCreate(s, cfg, username, now, id, command, expiresAt, token, resultId).After(s),
                   cfg.network, now)
  {}

  lemma WalletKeepsData(s: Flow, cfg: Settings, now: Time, signedAt: Time, found: Option<Id>, wallet: string,
                        minor: nat, op: Id, reserveId: Id)
    requires DataOk(s, cfg.network, now) && ValidSettings(cfg) && minor <= cfg.amountMax
    ensures DataOk(HandleWallet(s, cfg, now, signedAt, found, wallet, minor, op, reserveId).After(s), cfg.network, now)
  {
    if Domain.ValidateWallet(wallet) {
      Amount.FormattedAmountIsValid(minor, cfg.scale);
      BeginKeepsData(s, cfg.network, now, signedAt, found, wallet, Amount.FormatAmount(minor, cfg.scale), op,
                     reserveId);
    }
  }

  lemma OrderKeepsRows(s: Flow, cfg: Settings, username: string, now: Time, id: Id, command: InviteCreate,
                       expiresAt: Time, token: string, resultId: Id)
    requires OutboxOk(s.tables.outbox, now, cfg.bound) && 0 <= cfg.bound
    ensures RowsStep(s.tables.outbox, HandleInviteCreate(s, cfg, username, now, id, command, expiresAt, token,
                                                         resultId).After(s).tables.outbox, now, cfg.bound)
  {
    var ttl := if command.requestedTtlSeconds != 0 then command.requestedTtlSeconds * SECOND else cfg.inviteTtl;
    CreateInviteKeepsRows(s, now, id, command, expiresAt, ttl, token, DeepLink(username, token), resultId, cfg.bound);
  }

  lemma WalletKeepsRows(s: Flow, cfg: Settings, now: Time, signedAt: Time, found: Option<Id>, wallet: string,
                        minor: nat, op: Id, reserveId: Id)
    requires OutboxOk(s.tables.outbox, now, cfg.bound) && 0 <= cfg.bound
    ensures RowsStep(s.tables.outbox, HandleWallet(s, cfg, now, signedAt, found, wallet, minor, op,
                                                   reserveId).After(s).tables.outbox, now, cfg.bound)
  {
    BeginKeepsRows(s, cfg.network, now, signedAt, found, wallet, Amount.FormatAmount(minor, cfg.scale), op, reserveId,
                   cfg.bound);
  }

  // Every step but those of the publisher.
  lemma TransactionKeepsRows(s: Flow, cfg: Settings, now: Time, step: Step)
    requires OutboxOk(s.tables.outbox, now, cfg.bound) && 0 <= cfg.bound && !step.Publish? && SentAreCommands(s)
    ensures RowsStep(s.tables.outbox, NextDb(s, cfg, now, step).tables.outbox, now, cfg.bound)
  {
    match step {
      case DeliverInviteCreate(id, command, expiresAt, username, token, resultId) =>
        OrderKeepsRows(s, cfg, username, now, id, command, expiresAt, token, resultId);
      case Consume(_, _, _, _, _, _) =>
      case SendWallet(_, _, found, wallet, minor, signedAt, op, reserveId) =>
        WalletKeepsRows(s, cfg, now, signedAt, found, wallet, minor, op, reserveId);
      case DeliverReserved(id, reserved, expiresAt) => ReservedKeepsRows(s, now, id, reserved, expiresAt, cfg.bound);
      case DeliverReserveRejected(id, rejection, expiresAt) =>
        ReserveRejectedKeepsRows(s, now, id, rejection, expiresAt, cfg.bound);
      case DeliverPayment(id, payment, expiresAt, verifyId) =>
        PaymentKeepsRows(s, cfg, now, id, payment, expiresAt, verifyId);
      case DeliverActivated(id, activated, expiresAt) =>
        ActivatedKeepsRows(s, now, id, activated, expiresAt, cfg.bound);
      case DeliverRejected(id, rejection, expiresAt) => RejectedKeepsRows(s, now, id, rejection, expiresAt, cfg.bound);
      case Expire(ops) => ExpireKeepsTables(s, ops, now);
    }
  }

  lemma StepKeepsRows(w: World, move: Move, cfg: Settings)
    requires OutboxOk(w.db.tables.outbox, w.now, cfg.bound) && CommandsOk(w.db, w.now) && Enabled(w, move, cfg)
    ensures var outbox, outbox' := w.db.tables.outbox, Next(w, move, cfg).db.tables.outbox;
            && OutboxOk(outbox', move.at, cfg.bound) && AddsPending(outbox, outbox', move.at)
            && (move.step.Publish? || ClaimsNothing(outbox, outbox'))
  {
    TimePasses(w.db.tables.outbox, w.now, move.at, cfg.bound);
    CommandsAreSent(w.db, w.now);
    if move.step.Publish? {
      PublisherKeepsRows(w.db.tables.outbox, move.step.publisher, move.at, cfg.bound);
    } else {
      TransactionKeepsRows(w.db, cfg, move.at, move.step);
    }
  }

  lemma StepFollows(w: World, move: Move, cfg: Settings)
    requires ConversationsOk(w.db) && Enabled(w, move, cfg) && !move.step.Consume?
    ensures InvitesFollow(w.db, Next(w, move, cfg).db)
  {
    var s, at := w.db, move.at;
    match move.step {
      case DeliverInviteCreate(id, command, expiresAt, username, token, resultId) =>
        var ttl := if command.requestedTtlSeconds != 0 then command.requestedTtlSeconds * SECOND else cfg.inviteTtl;
        CreateInviteFollows(s, at, id, command, expiresAt, ttl, token, DeepLink(username, token), resultId);
      case SendWallet(_, _, found, wallet, minor, signedAt, op, reserveId) =>
        BeginFollows(s, at, signedAt, found, wallet, Amount.FormatAmount(minor, cfg.scale), cfg.network, op, reserveId);
      case DeliverReserved(id, reserved, expiresAt) => ReservedFollows(s, at, id, reserved, expiresAt);
      case DeliverReserveRejected(id, rejection, expiresAt) => ReserveRejectedFollows(s, at, id, rejection, expiresAt);
      case DeliverPayment(id, payment, expiresAt, verifyId) =>
        PaymentFollows(s, cfg, at, id, payment, expiresAt, verifyId);
      case DeliverActivated(id, activated, expiresAt) => ActivatedFollows(s, at, id, activated, expiresAt);
      case DeliverRejected(id, rejection, expiresAt) => RejectedFollows(s, at, id, rejection, expiresAt);
      case Expire(ops) => ExpireFollows(s, ops, at);
      case Publish(publisher) =>
    }
  }

  lemma ConsumeShape(s: Flow, now: Time, botId: int, userId: int, chatId: int, displayLabel: string, token: string,
                     sessionId: Id)
    requires FreshSession(s, sessionId)
    ensures var s' := ConsumeInvite(s, now, botId, userId, chatId, displayLabel, token, sessionId).After(s);
            s' == s || Binds(s, s', token, sessionId)
  {}

  lemma StepKeepsBinding(w: World, move: Move, cfg: Settings)
    requires BindingOk(w.db, w.binding) && ConversationsOk(w.db) && Enabled(w, move, cfg)
    requires SessionsContinue(w.db, Next(w, move, cfg).db)
    ensures BindingOk(Next(w, move, cfg).db, Next(w, move, cfg).binding)
  {
    if move.step.Consume? {
      var step := move.step;
      ConsumeShape(w.db, move.at, step.botId, step.userId, step.chatId, step.displayLabel, step.token, step.sessionId);
      if Next(w, move, cfg).db != w.db { BindingGrows(w.db, Next(w, move, cfg).db, w.binding, step.token,
                                                      step.sessionId); }
    } else {
      StepFollows(w, move, cfg);
      BindingStays(w.db, Next(w, move, cfg).db, w.binding);
    }
  }

  // ---- all runs ----

  lemma StepKeepsWorld(w: World, move: Move, cfg: Settings)
    requires WorldOk(w, cfg) && Enabled(w, move, cfg)
    ensures WorldOk(Next(w, move, cfg), cfg) && Continues(w.db, Next(w, move, cfg).db)
  {
    StepKeepsInv(w, move, cfg);
    StepKeepsData(w, move, cfg);
    StepKeepsRows(w, move, cfg);
    StepKeepsBinding(w, move, cfg);
    VerifyRowsStayValid(w.db, Next(w, move, cfg).db, cfg.network, move.at);
  }

  // Every reachable state satisfies the invariant, and the past is final.
  lemma {:induction false} RunKeepsWorld(w: World, moves: seq<Move>, cfg: Settings)
    requires WorldOk(w, cfg) && EnabledRun(w, moves, cfg)
    ensures WorldOk(Run(w, moves, cfg), cfg) && Continues(w.db, Run(w, moves, cfg).db)
    decreases |moves|
  {
    if moves == [] {
      ContinuesReflexive(w.db);
    } else {
      var w' := Next(w, moves[0], cfg);
      StepKeepsWorld(w, moves[0], cfg);
      RunKeepsWorld(w', moves[1..], cfg);
      ContinuesTransitive(w.db, w'.db, Run(w', moves[1..], cfg).db);
    }
  }

  lemma ReachableIsOk(moves: seq<Move>, cfg: Settings)
    requires EnabledRun(START, moves, cfg)
    ensures WorldOk(Run(START, moves, cfg), cfg)
  {
    EmptyInv(cfg.network);
    RunKeepsWorld(START, moves, cfg);
  }
}
