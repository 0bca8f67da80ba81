// What holds of both services together in every reachable state.
module SystemTheorems {
  import opened Base
  import opened Contracts
  import opened Messages
  import opened System
  import S = Sessions
  import SI = SessionsInvariant
  import SH = SessionsHistory
  import SR = SessionsRuns
  import ST = SessionsTheorems
  import B = Bot
  import BI = BotInvariant
  import BT = BotTheorems

  // ---- from the authority to the bot ----

  // What the bot knows about an operation the authority has verified.
  predicate FollowsVerdict(s: S.Authority, b: B.Flow, op: Id)
    requires op in b.attempts && op in s.events
  {
    var a := b.attempts[op];
    match a.status
    case AwaitingVerification => BI.Driving(b, op)
    case AttemptActive =>
      a.sessionId in b.projection && b.projection[a.sessionId].authorityVersion == s.events[op].version
    case AttemptExpired =>
      a.offer.Some? && a.completedAt.Some? && a.offer.value.expiresAt + 30 * MINUTE <= a.completedAt.value
    case _ => false
  }

  lemma VerifiedAttempt(s: S.Authority, b: B.Flow, now: Time, op: Id)
    requires op in s.verifications && s.verifications[op].status.Verified? && SI.VerificationOk(s, op) && SI.EventsOk(s)
    requires FromBot(s.verifications[op], b.tables.outbox) && BI.OutboxRowsOk(b) && BI.CommandsOk(b, now)
    requires BI.AttemptsOk(b)
    requires VerdictsAgree(s, b)
    ensures op in b.attempts && op in s.events && FollowsVerdict(s, b, op)
  {
    SameCommand(s, b, now, op);
    assert BI.AttemptOk(b, op) && VerdictAgrees(s, b, op);
  }

  // An operation verified by the authority is awaited by the bot, or shown as active with the version of its event, or
  // was expired no earlier than half an hour after its offer.
  lemma VerifiedIsFollowed(w: World, cfg: Settings, op: Id)
    requires WorldOk(w, cfg) && op in w.sessions.db.verifications && w.sessions.db.verifications[op].status.Verified?
    ensures op in w.bot.db.attempts && op in w.sessions.db.events && FollowsVerdict(w.sessions.db, w.bot.db, op)
  {
    assert SI.VerificationOk(w.sessions.db, op) && FromBot(w.sessions.db.verifications[op], w.bot.db.tables.outbox);
    VerifiedAttempt(w.sessions.db, w.bot.db, w.bot.now, op);
  }

  // The bot has closed the attempt and does not show its session as activated by it.
  predicate GaveUp(b: B.Flow, op: Id)
    requires op in b.attempts
  {
    !B.Open(b.attempts[op].status) && !BI.ActivatedBy(b, b.attempts[op].sessionId, op)
  }

  // The services disagree about a verified operation exactly when the bot has expired its attempt.
  lemma ServicesDisagreeExactlyIfExpired(w: World, cfg: Settings, op: Id)
    requires WorldOk(w, cfg) && op in w.sessions.db.verifications && w.sessions.db.verifications[op].status.Verified?
    ensures op in w.bot.db.attempts && (GaveUp(w.bot.db, op) <==> w.bot.db.attempts[op].status.AttemptExpired?)
  {
    VerifiedIsFollowed(w, cfg, op);
  }

  lemma ArrivedActivation(w: World, cfg: Settings, id: Id, activated: Activated, expiresAt: Time)
    requires WorldOk(w, cfg) && Envelope(id, ActivatedBody(activated), expiresAt) in w.net
    ensures Verdict(w.sessions.db, ActivatedBody(activated))
  {
    ArrivedResult(w, Envelope(id, ActivatedBody(activated), expiresAt));
  }

  // What a verified operation's attempt still awaits is what the result says.
  lemma ResultAnswers(s: S.Authority, b: B.Flow, now: Time, id: Id, activated: Activated)
    requires Verdict(s, ActivatedBody(activated)) && SI.VerificationOk(s, activated.operationId)
    requires SI.EventOk(s, activated.operationId)
    requires FromBot(s.verifications[activated.operationId], b.tables.outbox) && BI.OutboxRowsOk(b)
    requires BI.CommandsOk(b, now) && BI.AttemptsOk(b)
    requires id !in b.tables.inbox && activated.operationId in b.attempts
    requires b.attempts[activated.operationId].status.AwaitingVerification?
    ensures BT.Answers(b, id, activated)
  {
    SameCommand(s, b, now, activated.operationId);
    assert BI.AttemptOk(b, activated.operationId);
  }

  lemma AwaitedIsShown(s: S.Authority, b: B.Flow, now: Time, at: Time, id: Id, activated: Activated, expiresAt: Time)
    requires BI.Inv(b, now) && BT.Answers(b, id, activated)
    ensures var b' := B.CompleteActivated(b, at, id, activated, expiresAt).After(b);
            BI.ActivatedBy(b', activated.sessionId, activated.operationId)
  {
    BT.ActivatedIsApplied(b, now, at, id, activated, expiresAt);
  }

  lemma OtherwiseNothingHappens(b: B.Flow, at: Time, id: Id, activated: Activated, expiresAt: Time)
    requires activated.operationId in b.attempts
    requires !b.attempts[activated.operationId].status.AwaitingVerification?
    ensures B.CompleteActivated(b, at, id, activated, expiresAt).After(b).attempts == b.attempts
  {}

  // The bot's side of a verified operation, whose result now arrives.
  lemma ShownExactlyIfNotExpired(s: S.Authority, b: B.Flow, now: Time, at: Time, id: Id, activated: Activated,
                                 expiresAt: Time)
    requires BI.Inv(b, now) && activated.operationId in b.attempts && activated.operationId in s.events
    requires FollowsVerdict(s, b, activated.operationId)
    requires b.attempts[activated.operationId].sessionId == activated.sessionId
    requires b.attempts[activated.operationId].status.AwaitingVerification? ==> BT.Answers(b, id, activated)
    ensures var op, b' := activated.operationId, B.CompleteActivated(b, at, id, activated, expiresAt).After(b);
            BI.ActivatedBy(b', activated.sessionId, op) <==> !b.attempts[op].status.AttemptExpired?
  {
    if b.attempts[activated.operationId].status.AwaitingVerification? {
      AwaitedIsShown(s, b, now, at, id, activated, expiresAt);
    } else {
      OtherwiseNothingHappens(b, at, id, activated, expiresAt);
    }
  }

  lemma ArrivedResultIsOfAttempt(w: World, cfg: Settings, id: Id, activated: Activated, expiresAt: Time)
    requires WorldOk(w, cfg) && Envelope(id, ActivatedBody(activated), expiresAt) in w.net
    requires id !in w.bot.db.tables.inbox
    ensures var op, s, b := activated.operationId, w.sessions.db, w.bot.db;
            && op in b.attempts && op in s.events && FollowsVerdict(s, b, op)
            && b.attempts[op].sessionId == activated.sessionId
            && (b.attempts[op].status.AwaitingVerification? ==> BT.Answers(b, id, activated))
  {
    var op, s, b := activated.operationId, w.sessions.db, w.bot.db;
    ArrivedActivation(w, cfg, id, activated, expiresAt);
    VerifiedIsFollowed(w, cfg, op);
    assert SI.VerificationOk(s, op) && SI.EventOk(s, op) && FromBot(s.verifications[op], b.tables.outbox);
    SameCommand(s, b, w.bot.now, op);
    if b.attempts[op].status.AwaitingVerification? { ResultAnswers(s, b, w.bot.now, id, activated); }
  }

  // When the result of a verified operation first arrives, the bot shows the session as active afterwards exactly when
  // it had not expired the attempt before.
  lemma ResultIsShownExactlyIfNotExpired(w: World, cfg: Settings, at: Time, id: Id, activated: Activated,
                                         expiresAt: Time)
    requires WorldOk(w, cfg) && Envelope(id, ActivatedBody(activated), expiresAt) in w.net
    requires id !in w.bot.db.tables.inbox
    ensures var op, b' := activated.operationId,
                          B.CompleteActivated(w.bot.db, at, id, activated, expiresAt).After(w.bot.db);
            && op in w.bot.db.attempts
            && (BI.ActivatedBy(b', activated.sessionId, op) <==> !w.bot.db.attempts[op].status.AttemptExpired?)
  {
    ArrivedResultIsOfAttempt(w, cfg, id, activated, expiresAt);
    ShownExactlyIfNotExpired(w.sessions.db, w.bot.db, w.bot.now, at, id, activated, expiresAt);
  }

  // ---- transactions ----

  lemma EventTransaction(s: S.Authority, b: B.Flow, now: Time, op: Id)
    requires op in s.events && SI.EventOk(s, op) && SI.VerificationOk(s, op)
    requires FromBot(s.verifications[op], b.tables.outbox) && BI.OutboxRowsOk(b) && BI.CommandsOk(b, now)
    ensures op in b.attempts && b.attempts[op].network == s.events[op].network
    ensures b.attempts[op].transactionId == Some(s.events[op].transactionId)
  {
    SameCommand(s, b, now, op);
  }

  // A transaction activates one operation only, ever: even one that a later activation of its session has replaced.
  lemma TransactionActivatesOnce(w: World, cfg: Settings, a: Id, b: Id)
    requires WorldOk(w, cfg) && a in w.sessions.db.events && b in w.sessions.db.events
    requires w.sessions.db.events[a].network == w.sessions.db.events[b].network
    requires w.sessions.db.events[a].transactionId == w.sessions.db.events[b].transactionId
    ensures a == b
  {
    var s := w.sessions.db;
    assert SI.EventOk(s, a) && SI.EventOk(s, b) && SI.VerificationOk(s, a) && SI.VerificationOk(s, b);
    assert FromBot(s.verifications[a], w.bot.db.tables.outbox) && FromBot(s.verifications[b], w.bot.db.tables.outbox);
    EventTransaction(s, w.bot.db, w.bot.now, a);
    EventTransaction(s, w.bot.db, w.bot.now, b);
  }

  // ---- conflicts ----

  // What the commands and sessions of the authority have in common with the bot's tables.
  ghost predicate Matched(w: World) {
    && SI.VerificationsOk(w.sessions.db) && SI.EventsOk(w.sessions.db) && SI.SessionsOk(w.sessions.db)
    && SI.VersionsOk(w.sessions.db)
    && CommandsFromBot(w.sessions.db, w.bot.db.tables.outbox)
    && BI.OutboxRowsOk(w.bot.db) && BI.CommandsOk(w.bot.db, w.bot.now) && BI.AttemptsOk(w.bot.db)
    && BI.UsersUnique(w.bot.db) && BI.TransactionsUnique(w.bot.db)
  }

  // The command of an operation belongs to the user and the balance of its session, wherever the bot has it.
  lemma CommandIsOwned(w: World, op: Id)
    requires Matched(w) && op in w.sessions.db.verifications
    ensures var command := w.sessions.db.verifications[op].command;
            && op in w.bot.db.attempts && w.bot.db.attempts[op].sessionId == command.sessionId
            && (command.sessionId in w.bot.db.inactive || command.sessionId in w.bot.db.projection)
            && BI.Owned(w.bot.db, command.sessionId, command)
            && w.bot.db.attempts[op].network == command.network
            && w.bot.db.attempts[op].transactionId == Some(command.transactionId)
  {
    assert SI.VerificationOk(w.sessions.db, op) && FromBot(w.sessions.db.verifications[op], w.bot.db.tables.outbox);
    SameCommand(w.sessions.db, w.bot.db, w.bot.now, op);
    assert BI.AttemptOk(w.bot.db, op);
  }

  lemma SameUserIsSameSession(b: B.Flow, x: Id, y: Id, p: ActivationVerify, q: ActivationVerify)
    requires BI.UsersUnique(b) && BI.Owned(b, x, p) && BI.Owned(b, y, q)
    requires (x in b.inactive || x in b.projection) && (y in b.inactive || y in b.projection)
    ensures p.botId == q.botId && p.userId == q.userId ==> x == y
  {}

  lemma OtherUser(w: World, op: Id, id: Id)
    requires Matched(w) && op in w.sessions.db.verifications
    requires id in w.sessions.db.sessions && id != w.sessions.db.verifications[op].command.sessionId
    ensures var session, command := w.sessions.db.sessions[id], w.sessions.db.verifications[op].command;
            !(session.botId == command.botId && session.userId == command.userId)
  {
    var s, command := w.sessions.db, w.sessions.db.verifications[op].command;
    var first := ST.FirstEvent(s, id);
    assert SI.EventOk(s, first);
    CommandIsOwned(w, op);
    CommandIsOwned(w, first);
    SameUserIsSameSession(w.bot.db, id, command.sessionId, s.verifications[first].command, command);
  }

  lemma OtherTransaction(w: World, op: Id, id: Id)
    requires Matched(w) && op in w.sessions.db.verifications && id in w.sessions.db.sessions
    requires w.sessions.db.verifications[op].status.VerificationPending?
    ensures var session, command := w.sessions.db.sessions[id], w.sessions.db.verifications[op].command;
            !(session.network == command.network && session.transactionId == command.transactionId)
  {
    var latest := ST.LatestEvent(w.sessions.db, id);
    assert SI.EventOk(w.sessions.db, latest);
    CommandIsOwned(w, op);
    CommandIsOwned(w, latest);
  }

  // Another session neither belongs to the user of a command nor was last activated by its transaction.
  lemma OtherSessionIsElsewhere(w: World, op: Id, id: Id)
    requires Matched(w) && op in w.sessions.db.verifications
    requires w.sessions.db.verifications[op].status.VerificationPending?
    requires id in w.sessions.db.sessions && id != w.sessions.db.verifications[op].command.sessionId
    ensures !S.Conflicts(w.sessions.db.sessions[id], w.sessions.db.verifications[op].command)
  {
    OtherUser(w, op, id);
    OtherTransaction(w, op, id);
  }

  lemma OwnSessionHasTheBalance(w: World, op: Id)
    requires Matched(w) && op in w.sessions.db.verifications
    requires w.sessions.db.verifications[op].command.sessionId in w.sessions.db.sessions
    ensures var command := w.sessions.db.verifications[op].command;
            w.sessions.db.sessions[command.sessionId].identity == Fingerprint(command.balanceId)
  {
    var first := ST.FirstEvent(w.sessions.db, w.sessions.db.verifications[op].command.sessionId);
    assert SI.EventOk(w.sessions.db, first);
    CommandIsOwned(w, op);
    CommandIsOwned(w, first);
  }

  // With the bot as the only source of commands no verification ever ends in a conflict.
  lemma NothingIsOccupied(w: World, op: Id)
    requires Matched(w) && op in w.sessions.db.verifications
    requires w.sessions.db.verifications[op].status.VerificationPending?
    ensures !ST.Occupied(w.sessions.db, w.sessions.db.verifications[op].command)
  {
    var s, command := w.sessions.db, w.sessions.db.verifications[op].command;
    forall id | id in s.sessions && id != command.sessionId ensures !S.Conflicts(s.sessions[id], command) {
      OtherSessionIsElsewhere(w, op, id);
    }
    if command.sessionId in s.sessions { OwnSessionHasTheBalance(w, op); }
  }

  lemma WorldIsMatched(w: World, cfg: Settings)
    requires WorldOk(w, cfg)
    ensures Matched(w)
  {}

  // So a confirmation that binds a wallet verifies its operation.
  lemma BindingVerifies(w: World, cfg: Settings, at: Time, id: Id, verified: TopupVerified, expiresAt: Time,
                        resultId: Id)
    requires WorldOk(w, cfg) && id !in w.sessions.db.tables.inbox && resultId !in w.sessions.db.tables.outbox
    requires SI.Undecided(w.sessions.db, verified.operationId)
    ensures var s' := S.ApplyTopupVerified(w.sessions.db, at, id, verified, expiresAt, resultId).After(w.sessions.db);
            var key := Fingerprint(w.sessions.db.verifications[verified.operationId].command.balanceId);
            key !in w.sessions.db.identities && key in s'.identities ==> ST.IsVerified(s', verified.operationId)
  {
    WorldIsMatched(w, cfg);
    NothingIsOccupied(w, verified.operationId);
    ST.WalletIsBoundUnverifiedExactlyIf(w.sessions.db, at, id, verified, expiresAt, resultId);
  }

  // In the system a new confirmation verifies its operation exactly when its facts are accepted and the balance is not
  // bound to another wallet.
  lemma VerdictInSystem(w: World, cfg: Settings, at: Time, id: Id, verified: TopupVerified, expiresAt: Time,
                        resultId: Id)
    requires WorldOk(w, cfg) && id !in w.sessions.db.tables.inbox && resultId !in w.sessions.db.tables.outbox
    requires SI.Undecided(w.sessions.db, verified.operationId)
    ensures var command := w.sessions.db.verifications[verified.operationId].command;
            var s' := S.ApplyTopupVerified(w.sessions.db, at, id, verified, expiresAt, resultId).After(w.sessions.db);
            ST.IsVerified(s', verified.operationId)
            <==> S.FactsAccepted(verified, command, at) && !ST.BoundElsewhere(w.sessions.db, command)
  {
    WorldIsMatched(w, cfg);
    NothingIsOccupied(w, verified.operationId);
    ST.VerdictIsExact(w.sessions.db, at, id, verified, expiresAt, resultId);
  }

  predicate BindsWallet(s: S.Authority, op: Id, key: Fingerprint) {
    ST.IsVerified(s, op) && Fingerprint(s.verifications[op].command.balanceId) == key
  }

  ghost predicate BindingsVerified(s: S.Authority) {
    forall key | key in s.identities :: exists op :: BindsWallet(s, op, key)
  }

  // Only a new confirmation of an undecided operation can bind a balance, and only its own.
  lemma NewBindingIsConfirmed(s: S.Authority, network: string, now: Time, step: S.Step, key: Fingerprint)
    requires key !in s.identities && key in S.NextDb(s, network, now, step).identities
    ensures step.DeliverTopupVerified? && step.id !in s.tables.inbox && SI.Undecided(s, step.verified.operationId)
    ensures key == Fingerprint(s.verifications[step.verified.operationId].command.balanceId)
  {
    if step.DeliverTopupVerified? {
      ConfirmationBindsOwn(s, now, step.id, step.verified, step.expiresAt, step.resultId, key);
    }
  }

  lemma ConfirmationBindsOwn(s: S.Authority, now: Time, id: Id, verified: TopupVerified, expiresAt: Time, resultId: Id,
                             key: Fingerprint)
    requires key !in s.identities
    requires key in S.ApplyTopupVerified(s, now, id, verified, expiresAt, resultId).After(s).identities
    ensures id !in s.tables.inbox && SI.Undecided(s, verified.operationId)
    ensures key == Fingerprint(s.verifications[verified.operationId].command.balanceId)
  {
    if SI.Undecided(s, verified.operationId) && id !in s.tables.inbox {
      var m := s.(tables := Register(s.tables, id, TopupVerifiedBody(verified), expiresAt).0);
      ST.FreshConfirmation(s, now, id, verified, expiresAt, resultId);
      ST.IdentitiesAfter(m, now, id, verified, resultId);
    }
  }

  lemma BindingStays(s: S.Authority, s': S.Authority, op: Id, key: Fingerprint)
    requires BindsWallet(s, op, key) && SH.Continues(s, s')
    ensures BindsWallet(s', op, key)
  {
    assert SH.VerificationContinues(s.verifications[op], s'.verifications[op]);
  }

  lemma SessionsMoveKeepsBindings(w: World, m: SR.Move, cfg: Settings)
    requires WorldOk(w, cfg) && SR.Enabled(w.sessions, m, cfg.sessions) && BindingsVerified(w.sessions.db)
    ensures BindingsVerified(SR.Next(w.sessions, m, cfg.sessions).db)
  {
    var s, s' := w.sessions.db, SR.Next(w.sessions, m, cfg.sessions).db;
    SR.StepContinues(w.sessions, m, cfg.sessions);
    forall key | key in s'.identities ensures exists op :: BindsWallet(s', op, key) {
      if key in s.identities {
        var op :| BindsWallet(s, op, key);
        BindingStays(s, s', op, key);
      } else {
        NewBindingIsConfirmed(s, cfg.sessions.network, m.at, m.step, key);
        BindingVerifies(w, cfg, m.at, m.step.id, m.step.verified, m.step.expiresAt, m.step.resultId);
        NewBindingBinds(s, s', m.step.verified.operationId, key);
      }
    }
  }

  lemma NewBindingBinds(s: S.Authority, s': S.Authority, op: Id, key: Fingerprint)
    requires SH.Continues(s, s') && op in s.verifications && ST.IsVerified(s', op)
    requires Fingerprint(s.verifications[op].command.balanceId) == key
    ensures BindsWallet(s', op, key)
  {
    assert SH.VerificationContinues(s.verifications[op], s'.verifications[op]);
  }

  lemma {:induction false} RunKeepsBindings(w: World, moves: seq<Move>, cfg: Settings)
    requires WorldOk(w, cfg) && EnabledRun(w, moves, cfg) && BindingsVerified(w.sessions.db)
    ensures BindingsVerified(Run(w, moves, cfg).sessions.db)
    decreases |moves|
  {
    if moves != [] {
      StepKeepsWorld(w, moves[0], cfg);
      if moves[0].AtSessions? { SessionsMoveKeepsBindings(w, moves[0].atSessions, cfg); }
      RunKeepsBindings(Next(w, moves[0], cfg), moves[1..], cfg);
    }
  }

  // The first verified activation binds the wallet: over every run of both services a bound balance has a verified
  // operation, and every one it has carried the bound wallet and network.
  lemma BoundWalletIsVerified(moves: seq<Move>, cfg: Settings, key: Fingerprint) returns (op: Id)
    requires EnabledRun(START, moves, cfg) && key in Run(START, moves, cfg).sessions.db.identities
    ensures var s := Run(START, moves, cfg).sessions.db;
            && BindsWallet(s, op, key)
            && s.verifications[op].command.senderWallet == s.identities[key].wallet
            && s.verifications[op].command.network == s.identities[key].network
  {
    StartIsOk(cfg);
    RunKeepsBindings(START, moves, cfg);
    ReachableIsOk(moves, cfg);
    op := Witness(Run(START, moves, cfg), cfg, key);
  }

  lemma Witness(w: World, cfg: Settings, key: Fingerprint) returns (op: Id)
    requires WorldOk(w, cfg) && BindingsVerified(w.sessions.db) && key in w.sessions.db.identities
    ensures var s := w.sessions.db;
            && BindsWallet(s, op, key)
            && s.verifications[op].command.senderWallet == s.identities[key].wallet
            && s.verifications[op].command.network == s.identities[key].network
  {
    op :| BindsWallet(w.sessions.db, op, key);
    assert SI.EventOk(w.sessions.db, op);
  }
}
