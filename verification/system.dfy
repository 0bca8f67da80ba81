// The two services together: the network is the growing set of messages ever handed to a publisher, and any of
// them may arrive at any later step, any number of times, or never. The external top-up service and the invite
// issuer may send anything.
module System {
  import opened Base
  import opened Contracts
  import opened Messages
  import S = Sessions
  import SI = SessionsInvariant
  import SR = SessionsRuns
  import SH = SessionsHistory
  import ST = SessionsTheorems
  import B = Bot
  import BI = BotInvariant
  import BM = BotMachine
  import BR = BotRuns
  import BC = BotContract
  import Domain

  datatype World = World(sessions: SR.World, bot: BR.World, net: set<Envelope>)
  datatype Move = AtSessions(atSessions: SR.Move) | AtBot(atBot: BR.Move)
  datatype Settings = Settings(sessions: SR.Settings, bot: B.Settings)

  const START: World := World(SR.START, BR.START, {})

  function At(move: Move): Time {
    match move
    case AtSessions(m) => m.at
    case AtBot(m) => m.at
  }

  // Messages between the services must have been handed to a publisher before.
  ghost predicate Delivered(w: World, move: Move) {
    match move
    case AtSessions(m) =>
      (match m.step
       case DeliverVerify(id, command, expiresAt, _) => Envelope(id, VerifyBody(command), expiresAt) in w.net
       case _ => true)
    case AtBot(m) =>
      (match m.step
       case DeliverActivated(id, activated, expiresAt) => Envelope(id, ActivatedBody(activated), expiresAt) in w.net
       case DeliverRejected(id, rejection, expiresAt) =>
         Envelope(id, ActivationRejectedBody(rejection), expiresAt) in w.net
       case _ => true)
  }

  ghost predicate Enabled(w: World, move: Move, cfg: Settings) {
    && w.sessions.now <= At(move) && w.bot.now <= At(move) && Delivered(w, move)
    && match move
       case AtSessions(m) => SR.Enabled(w.sessions, m, cfg.sessions)
       case AtBot(m) => BR.Enabled(w.bot, m, cfg.bot)
  }

  function Sent(outbox: map<Id, OutboxRow>, ids: set<Id>, now: Time): set<Envelope> {
    set id | id in ids && id in outbox && Claimable(outbox[id], now) ::
      Envelope(id, outbox[id].body, outbox[id].expiresAt)
  }

  function SentBy(outbox: map<Id, OutboxRow>, publisher: PublisherStep, now: Time): set<Envelope> {
    if publisher.ClaimBatch? then Sent(outbox, publisher.ids, now) else {}
  }

  function Next(w: World, move: Move, cfg: Settings): World {
    match move
    case AtSessions(m) =>
      w.(sessions := SR.Next(w.sessions, m, cfg.sessions),
      net := w.net + if m.step.Publish? then SentBy(w.sessions.db.tables.outbox, m.step.publisher, m.at) else {})
    case AtBot(m) =>
      w.(bot := BR.Next(w.bot, m, cfg.bot),
      net := w.net + if m.step.Publish? then SentBy(w.bot.db.tables.outbox, m.step.publisher, m.at) else {})
  }

  function Run(w: World, moves: seq<Move>, cfg: Settings): World
    decreases |moves|
  {
    if moves == [] then w else Run(Next(w, moves[0], cfg), moves[1..], cfg)
  }

  ghost predicate EnabledRun(w: World, moves: seq<Move>, cfg: Settings)
    decreases |moves|
  {
    moves == [] || (Enabled(w, moves[0], cfg) && EnabledRun(Next(w, moves[0], cfg), moves[1..], cfg))
  }

  // ---- the invariant across the services ----

  predicate SentFrom(outbox: map<Id, OutboxRow>, e: Envelope) {
    e.id in outbox && outbox[e.id].body == e.body && outbox[e.id].expiresAt == e.expiresAt
  }

  ghost predicate NetOk(s: S.Authority, b: B.Flow, net: set<Envelope>) {
    forall e | e in net :: SentFrom(b.tables.outbox, e) || SentFrom(s.tables.outbox, e)
  }

  // The command of a verification is a row of the bot's outbox.
  predicate FromBot(v: S.Verification, outbox: map<Id, OutboxRow>) {
    v.commandId in outbox && outbox[v.commandId].body == VerifyBody(v.command)
  }

  ghost predicate CommandsFromBot(s: S.Authority, outbox: map<Id, OutboxRow>) {
    forall op | op in s.verifications :: FromBot(s.verifications[op], outbox)
  }

  // What the bot was told about an attempt is what the authority decided.
  predicate VerdictAgrees(s: S.Authority, b: B.Flow, op: Id)
    requires op in b.attempts
  {
    var a := b.attempts[op];
    && (a.status.AttemptActive? ==>
          && op in s.verifications && s.verifications[op].status.Verified? && op in s.events
          && a.sessionId in b.projection && b.projection[a.sessionId].authorityVersion == s.events[op].version)
    && (a.status.AttemptRejected? && a.verifyId.Some? ==>
          op in s.verifications && (s.verifications[op].status.Rejected? || s.verifications[op].status.Expired?))
  }

  ghost predicate VerdictsAgree(s: S.Authority, b: B.Flow) {
    forall op | op in b.attempts :: VerdictAgrees(s, b, op)
  }

  // What ties the two databases and the network together.
  ghost predicate Linked(s: S.Authority, b: B.Flow, net: set<Envelope>) {
    NetOk(s, b, net) && CommandsFromBot(s, b.tables.outbox) && VerdictsAgree(s, b)
  }

  ghost predicate WorldOk(w: World, cfg: Settings) {
    && SR.WorldOk(w.sessions, cfg.sessions) && BR.WorldOk(w.bot, cfg.bot)
    && Linked(w.sessions.db, w.bot.db, w.net)
  }

  // ---- messages on the wire ----

  // The outboxes evolve, and what is new on the wire comes from them.
  ghost predicate NetGrows(s: S.Authority, b: B.Flow, net: set<Envelope>, s': S.Authority, b': B.Flow,
                           net': set<Envelope>)
  {
    && Evolves(b.tables.outbox, b'.tables.outbox) && Evolves(s.tables.outbox, s'.tables.outbox)
    && forall e | e in net' && e !in net :: SentFrom(b.tables.outbox, e) || SentFrom(s.tables.outbox, e)
  }

  lemma SentStays(outbox: map<Id, OutboxRow>, outbox': map<Id, OutboxRow>, e: Envelope)
    requires SentFrom(outbox, e) && Evolves(outbox, outbox')
    ensures SentFrom(outbox', e)
  {
    assert RowEvolves(outbox[e.id], outbox'[e.id]);
  }

  lemma NetStaysOk(s: S.Authority, b: B.Flow, net: set<Envelope>, s': S.Authority, b': B.Flow, net': set<Envelope>)
    requires NetOk(s, b, net) && NetGrows(s, b, net, s', b', net')
    ensures NetOk(s', b', net')
  {
    forall e | e in net' ensures SentFrom(b'.tables.outbox, e) || SentFrom(s'.tables.outbox, e) {
      if SentFrom(b.tables.outbox, e) {
        SentStays(b.tables.outbox, b'.tables.outbox, e);
      } else {
        SentStays(s.tables.outbox, s'.tables.outbox, e);
      }
    }
  }

  lemma PublisherSends(outbox: map<Id, OutboxRow>, publisher: PublisherStep, now: Time)
    ensures forall e | e in SentBy(outbox, publisher, now) :: SentFrom(outbox, e)
  {}

  lemma BotSendsNoResults(b: B.Flow, e: Envelope)
    requires BI.OutboxRowsOk(b) && SentFrom(b.tables.outbox, e)
    ensures !e.body.ActivatedBody? && !e.body.ActivationRejectedBody?
  {}

  // A verify command that arrives was written by the bot.
  lemma ArrivedVerify(w: World, id: Id, command: ActivationVerify, expiresAt: Time)
    requires NetOk(w.sessions.db, w.bot.db, w.net) && SI.OutboxRowsOk(w.sessions.db)
    requires Envelope(id, VerifyBody(command), expiresAt) in w.net
    ensures SentFrom(w.bot.db.tables.outbox, Envelope(id, VerifyBody(command), expiresAt))
  {}

  // The verdict a result announces.
  predicate Verdict(s: S.Authority, body: Body) {
    && (body.ActivatedBody? ==>
          var op := body.activated.operationId;
          && op in s.verifications && s.verifications[op].status.Verified? && op in s.events
          && s.events[op].version == body.activated.authorityVersion
          && body.activated == Activated(op, s.verifications[op].command.sessionId,
                                         s.verifications[op].command.balanceId, "ACTIVE",
                                         s.events[op].version, s.verifications[op].completedAt))
    && (body.ActivationRejectedBody? ==>
          var op := body.activationRejected.operationId;
          op in s.verifications && (s.verifications[op].status.Rejected? || s.verifications[op].status.Expired?))
  }

  lemma RowTellsVerdict(s: S.Authority, id: Id)
    requires SI.OutboxRowsOk(s) && SI.VerificationsOk(s) && id in s.tables.outbox && s.tables.outbox[id].kind.Result?
    ensures Verdict(s, s.tables.outbox[id].body)
  {}

  lemma ResultsAreResults(s: S.Authority, id: Id)
    requires SI.OutboxRowsOk(s) && id in s.tables.outbox
    requires s.tables.outbox[id].body.ActivatedBody? || s.tables.outbox[id].body.ActivationRejectedBody?
    ensures s.tables.outbox[id].kind.Result?
  {}

  // A result that arrives tells what the authority decided.
  lemma ArrivedResult(w: World, e: Envelope)
    requires NetOk(w.sessions.db, w.bot.db, w.net) && SI.OutboxRowsOk(w.sessions.db)
    requires SI.VerificationsOk(w.sessions.db)
    requires BI.OutboxRowsOk(w.bot.db) && e in w.net
    requires e.body.ActivatedBody? || e.body.ActivationRejectedBody?
    ensures Verdict(w.sessions.db, e.body)
  {
    if SentFrom(w.bot.db.tables.outbox, e) { BotSendsNoResults(w.bot.db, e); }
    ResultsAreResults(w.sessions.db, e.id);
    RowTellsVerdict(w.sessions.db, e.id);
  }

  // ---- steps of the sessions service ----

  // A new verification is the delivered command.
  lemma NewVerificationIsDelivered(s: S.Authority, network: string, now: Time, step: S.Step, op: Id)
    requires op !in s.verifications && op in S.NextDb(s, network, now, step).verifications
    ensures step.DeliverVerify? && step.command.operationId == op
    ensures var v := S.NextDb(s, network, now, step).verifications[op];
            v.commandId == step.id && v.command == step.command
  {
    SessionsSteps(s, network, now, step, op);
  }

  lemma SessionsSteps(s: S.Authority, network: string, now: Time, step: S.Step, op: Id)
    requires op !in s.verifications && op in S.NextDb(s, network, now, step).verifications
    ensures step.DeliverVerify?
  {
    match step {
      case DeliverVerify(_, _, _, _) =>
      case DeliverTopupVerified(id, verified, expiresAt, resultId) =>
        VerifiedAddsNothing(s, now, id, verified, expiresAt, resultId);
      case DeliverTopupRejected(_, _, _, _) =>
      case Reconcile(_, _, _) =>
      case ReadPending(_) =>
      case Publish(_) =>
    }
  }

  lemma DecisionAddsNothing(m: S.Authority, now: Time, id: Id, verified: TopupVerified, resultId: Id)
    requires verified.operationId in m.verifications
    ensures S.DecideVerified(m, now, id, verified, resultId).After(m).verifications.Keys == m.verifications.Keys
  {}

  lemma VerifiedAddsNothing(s: S.Authority, now: Time, id: Id, verified: TopupVerified, expiresAt: Time, resultId: Id)
    ensures S.ApplyTopupVerified(s, now, id, verified, expiresAt, resultId).After(s).verifications.Keys
         == s.verifications.Keys
  {
    var (t, r) := Register(s.tables, id, TopupVerifiedBody(verified), expiresAt);
    if r.Accepted? && verified.operationId in s.verifications {
      DecisionAddsNothing(s.(tables := t), now, id, verified, resultId);
    }
  }

  lemma SessionsMoveKeepsCommands(w: World, m: SR.Move, cfg: Settings)
    requires SR.WorldOk(w.sessions, cfg.sessions) && NetOk(w.sessions.db, w.bot.db, w.net)
    requires CommandsFromBot(w.sessions.db, w.bot.db.tables.outbox)
    requires Enabled(w, AtSessions(m), cfg)
    ensures CommandsFromBot(SR.Next(w.sessions, m, cfg.sessions).db, w.bot.db.tables.outbox)
  {
    SR.StepContinues(w.sessions, m, cfg.sessions);
    var s, s' := w.sessions.db, SR.Next(w.sessions, m, cfg.sessions).db;
    forall op | op in s'.verifications ensures FromBot(s'.verifications[op], w.bot.db.tables.outbox) {
      if op in s.verifications {
        assert SH.VerificationContinues(s.verifications[op], s'.verifications[op])
               && FromBot(s.verifications[op], w.bot.db.tables.outbox);
      } else {
        NewVerificationIsDelivered(s, cfg.sessions.network, m.at, m.step, op);
        ArrivedVerify(w, m.step.id, m.step.command, m.step.expiresAt);
      }
    }
  }

  lemma VerdictStands(s: S.Authority, s': S.Authority, b: B.Flow, op: Id)
    requires op in b.attempts && VerdictAgrees(s, b, op) && SH.Continues(s, s')
    ensures VerdictAgrees(s', b, op)
  {}

  lemma VerdictsStand(s: S.Authority, s': S.Authority, b: B.Flow)
    requires VerdictsAgree(s, b) && SH.Continues(s, s')
    ensures VerdictsAgree(s', b)
  {
    forall op | op in b.attempts ensures VerdictAgrees(s', b, op) { VerdictStands(s, s', b, op); }
  }

  lemma SessionsNetGrows(w: World, m: SR.Move, cfg: Settings)
    requires Evolves(w.sessions.db.tables.outbox, SR.Next(w.sessions, m, cfg.sessions).db.tables.outbox)
    ensures var w' := Next(w, AtSessions(m), cfg);
            && w'.bot == w.bot && w'.sessions == SR.Next(w.sessions, m, cfg.sessions)
            && NetGrows(w.sessions.db, w.bot.db, w.net, w'.sessions.db, w'.bot.db, w'.net)
  {
    if m.step.Publish? { PublisherSends(w.sessions.db.tables.outbox, m.step.publisher, m.at); }
  }

  lemma SessionsMoveKeepsWorld(w: World, m: SR.Move, cfg: Settings)
    requires WorldOk(w, cfg) && Enabled(w, AtSessions(m), cfg)
    ensures WorldOk(Next(w, AtSessions(m), cfg), cfg)
  {
    var w' := Next(w, AtSessions(m), cfg);
    SR.StepKeepsWorld(w.sessions, m, cfg.sessions);
    SessionsMoveKeepsCommands(w, m, cfg);
    SessionsNetGrows(w, m, cfg);
    VerdictsStand(w.sessions.db, w'.sessions.db, w.bot.db);
    NetStaysOk(w.sessions.db, w.bot.db, w.net, w'.sessions.db, w'.bot.db, w'.net);
  }

  // ---- steps of the bot ----

  // How attempts get their verdict: only from a delivered result, except that a reservation may be refused.
  predicate VerdictFrom(b: B.Flow, b': B.Flow, step: B.Step, op: Id)
    requires op in b'.attempts
  {
    var a' := b'.attempts[op];
    && (a'.status.AttemptActive? ==>
          || (op in b.attempts && b.attempts[op] == a' && a'.sessionId in b.projection && a'.sessionId in b'.projection
              && b'.projection[a'.sessionId] == b.projection[a'.sessionId])
          || (step.DeliverActivated? && step.activated.operationId == op && a'.sessionId in b'.projection
              && b'.projection[a'.sessionId].authorityVersion == step.activated.authorityVersion))
    && (a'.status.AttemptRejected? && a'.verifyId.Some? ==>
          || (op in b.attempts && b.attempts[op] == a')
          || (step.DeliverRejected? && step.rejection.operationId == op))
  }

  ghost predicate SameOrNoVerdict(b: B.Flow, b': B.Flow) {
    && b'.projection == b.projection
    && forall o | o in b'.attempts ::
         || (o in b.attempts && b'.attempts[o] == b.attempts[o])
         || (!b'.attempts[o].status.AttemptActive? && (b'.attempts[o].status.AttemptRejected?
                                                       ==> b'.attempts[o].verifyId.None?))
  }

  lemma IgnoredVerdicts(b: B.Flow, now: Time, id: Id, digest: Body, expiresAt: Time, op: Id, expected: B.AttemptStatus)
    requires B.Receive(b, now, id, digest, expiresAt, op, expected).Ignored?
    ensures SameOrNoVerdict(b, B.Receive(b, now, id, digest, expiresAt, op, expected).tx.After(b))
  {}

  lemma ReservedVerdicts(b: B.Flow, now: Time, id: Id, result: ActivationReserved, expiresAt: Time)
    ensures SameOrNoVerdict(b, B.ApplyReserved(b, now, id, result, expiresAt).After(b))
  {}

  lemma MoveOnVerdicts(b: B.Flow, t: Tables, now: Time, id: Id, op: Id, attempt': B.Attempt, dialog: B.Dialog,
                       confirm: Option<Id>)
    requires !attempt'.status.AttemptActive? && (attempt'.status.AttemptRejected? ==> attempt'.verifyId.None?)
    ensures SameOrNoVerdict(b, B.MoveOn(b, t, now, id, op, attempt', dialog, confirm).After(b))
  {}

  lemma ReserveRejectedVerdicts(b: B.Flow, now: Time, id: Id, rejection: Rejection, expiresAt: Time)
    requires BI.AttemptsOk(b)
    ensures SameOrNoVerdict(b, B.ApplyReserveRejected(b, now, id, rejection, expiresAt).After(b))
  {
    var op, digest := rejection.operationId, ReserveRejectedBody(rejection);
    var r := B.Receive(b, now, id, digest, expiresAt, op, B.AwaitingReservation);
    BM.ReserveRejectedCases(b, now, id, rejection, expiresAt);
    if r.Ignored? {
      IgnoredVerdicts(b, now, id, digest, expiresAt, op, B.AwaitingReservation);
    } else {
      BM.ReceivedShape(b, now, id, digest, expiresAt, op, B.AwaitingReservation);
      assert BI.AttemptOk(b, op);
      MoveOnVerdicts(b, r.tables, now, id, op, B.Close(r.attempt, B.AttemptRejected, Some(rejection.code), now),
                     B.DialogRejected, Some(r.attempt.reserveId));
    }
  }

  lemma PaymentVerdicts(b: B.Flow, cfg: B.Settings, now: Time, id: Id, payment: PaymentConfirmed, expiresAt: Time,
                        verifyId: Id)
    ensures SameOrNoVerdict(b, B.ApplyPayment(b, cfg, now, id, payment, expiresAt, verifyId).After(b))
  {}

  lemma {:induction false} ExpireVerdicts(b: B.Flow, ops: seq<Id>, now: Time)
    ensures SameOrNoVerdict(b, B.ExpireAttempts(b, ops, now))
    decreases |ops|
  {
    if ops != [] {
      var b1 := B.ExpireOne(b, ops[0], now);
      ExpireVerdicts(b1, ops[1..], now);
    }
  }

  lemma UserVerdicts(b: B.Flow, cfg: B.Settings, now: Time, step: B.Step)
    requires step.Consume? || step.SendWallet?
    ensures SameOrNoVerdict(b, B.NextDb(b, cfg, now, step))
  {}

  lemma OrderVerdicts(b: B.Flow, cfg: B.Settings, now: Time, step: B.Step)
    requires step.DeliverInviteCreate?
    ensures SameOrNoVerdict(b, B.NextDb(b, cfg, now, step))
  {}

  lemma OtherVerdicts(b: B.Flow, cfg: B.Settings, now: Time, step: B.Step)
    requires BI.AttemptsOk(b) && !step.DeliverActivated? && !step.DeliverRejected?
    ensures SameOrNoVerdict(b, B.NextDb(b, cfg, now, step))
  {
    match step {
      case DeliverInviteCreate(_, _, _, _, _, _) => OrderVerdicts(b, cfg, now, step);
      case Consume(_, _, _, _, _, _) => UserVerdicts(b, cfg, now, step);
      case SendWallet(_, _, _, _, _, _, _, _) => UserVerdicts(b, cfg, now, step);
      case DeliverReserved(id, reserved, expiresAt) => ReservedVerdicts(b, now, id, reserved, expiresAt);
      case DeliverReserveRejected(id, rejection, expiresAt) =>
        ReserveRejectedVerdicts(b, now, id, rejection, expiresAt);
      case DeliverPayment(id, payment, expiresAt, verifyId) =>
        PaymentVerdicts(b, cfg, now, id, payment, expiresAt, verifyId);
      case Expire(ops) => ExpireVerdicts(b, ops, now);
      case Publish(_) =>
    }
  }

  lemma SameVerdictFrom(b: B.Flow, b': B.Flow, step: B.Step, op: Id)
    requires SameOrNoVerdict(b, b') && BI.AttemptsOk(b) && op in b'.attempts
    ensures VerdictFrom(b, b', step, op)
  {}

  lemma RejectedVerdicts(b: B.Flow, now: Time, id: Id, rejection: Rejection, expiresAt: Time, op: Id)
    requires BI.AttemptsOk(b) && op in B.CompleteRejected(b, now, id, rejection, expiresAt).After(b).attempts
    ensures VerdictFrom(b, B.CompleteRejected(b, now, id, rejection, expiresAt).After(b),
                        B.DeliverRejected(id, rejection, expiresAt), op)
  {
    assert op in b.attempts ==> BI.AttemptOk(b, op);
  }

  lemma ActivatedVerdicts(b: B.Flow, now: Time, id: Id, activated: Activated, expiresAt: Time, op: Id)
    requires BI.AttemptsOk(b) && BI.ConversationsOk(b) && BI.UsersUnique(b)
    requires op in B.CompleteActivated(b, now, id, activated, expiresAt).After(b).attempts
    ensures VerdictFrom(b, B.CompleteActivated(b, now, id, activated, expiresAt).After(b),
                        B.DeliverActivated(id, activated, expiresAt), op)
  {
    assert op in b.attempts ==> BI.AttemptOk(b, op);
    var r := B.Receive(b, now, id, ActivatedBody(activated), expiresAt, activated.operationId, B.AwaitingVerification);
    if r.Received? {
      BM.ReceivedShape(b, now, id, ActivatedBody(activated), expiresAt, activated.operationId, B.AwaitingVerification);
      if BM.Completable(b, activated) {
        assert BI.AttemptOk(b, activated.operationId);
        BM.CompletedShape(b, now, id, activated, expiresAt);
      } else {
        BM.NotCompletable(b, now, id, activated, expiresAt);
      }
    } else {
      IgnoredVerdicts(b, now, id, ActivatedBody(activated), expiresAt, activated.operationId, B.AwaitingVerification);
      SameVerdictFrom(b, B.CompleteActivated(b, now, id, activated, expiresAt).After(b),
                      B.DeliverActivated(id, activated, expiresAt), op);
    }
  }

  lemma StepVerdicts(b: B.Flow, cfg: B.Settings, now: Time, step: B.Step, op: Id)
    requires BI.AttemptsOk(b) && BI.ConversationsOk(b) && BI.UsersUnique(b)
    requires op in B.NextDb(b, cfg, now, step).attempts
    ensures VerdictFrom(b, B.NextDb(b, cfg, now, step), step, op)
  {
    if step.DeliverActivated? { ActivatedVerdicts(b, now, step.id, step.activated, step.expiresAt, op); }
    else if step.DeliverRejected? { RejectedVerdicts(b, now, step.id, step.rejection, step.expiresAt, op); }
    else {
      OtherVerdicts(b, cfg, now, step);
      SameVerdictFrom(b, B.NextDb(b, cfg, now, step), step, op);
    }
  }

  lemma DeliveredVerdict(w: World, m: BR.Move)
    requires NetOk(w.sessions.db, w.bot.db, w.net) && SI.OutboxRowsOk(w.sessions.db)
    requires SI.VerificationsOk(w.sessions.db)
    requires BI.OutboxRowsOk(w.bot.db)
    requires Delivered(w, AtBot(m))
    ensures m.step.DeliverActivated? ==> Verdict(w.sessions.db, ActivatedBody(m.step.activated))
    ensures m.step.DeliverRejected? ==> Verdict(w.sessions.db, ActivationRejectedBody(m.step.rejection))
  {
    if m.step.DeliverActivated? { ArrivedResult(w,
                                                Envelope(m.step.id, ActivatedBody(m.step.activated), m.step.expiresAt));
                                }
    if m.step.DeliverRejected? { ArrivedResult(w, Envelope(m.step.id, ActivationRejectedBody(m.step.rejection),
                                                           m.step.expiresAt)); }
  }

  lemma VerdictFollows(s: S.Authority, b: B.Flow, b': B.Flow, step: B.Step, op: Id)
    requires op in b'.attempts && VerdictFrom(b, b', step, op)
    requires op in b.attempts ==> VerdictAgrees(s, b, op)
    requires step.DeliverActivated? ==> Verdict(s, ActivatedBody(step.activated))
    requires step.DeliverRejected? ==> Verdict(s, ActivationRejectedBody(step.rejection))
    ensures VerdictAgrees(s, b', op)
  {}

  lemma BotStepKeepsVerdicts(s: S.Authority, b: B.Flow, cfg: B.Settings, now: Time, step: B.Step)
    requires VerdictsAgree(s, b) && BI.AttemptsOk(b) && BI.ConversationsOk(b) && BI.UsersUnique(b)
    requires step.DeliverActivated? ==> Verdict(s, ActivatedBody(step.activated))
    requires step.DeliverRejected? ==> Verdict(s, ActivationRejectedBody(step.rejection))
    ensures VerdictsAgree(s, B.NextDb(b, cfg, now, step))
  {
    var b' := B.NextDb(b, cfg, now, step);
    forall op | op in b'.attempts ensures VerdictAgrees(s, b', op) {
      StepVerdicts(b, cfg, now, step, op);
      VerdictFollows(s, b, b', step, op);
    }
  }

  lemma BotMoveKeepsVerdicts(w: World, m: BR.Move, cfg: Settings)
    requires WorldOk(w, cfg) && Enabled(w, AtBot(m), cfg)
    ensures VerdictsAgree(w.sessions.db, BR.Next(w.bot, m, cfg.bot).db)
  {
    DeliveredVerdict(w, m);
    BotStepKeepsVerdicts(w.sessions.db, w.bot.db, cfg.bot, m.at, m.step);
  }

  lemma CommandsStay(s: S.Authority, outbox: map<Id, OutboxRow>, outbox': map<Id, OutboxRow>)
    requires CommandsFromBot(s, outbox) && Evolves(outbox, outbox')
    ensures CommandsFromBot(s, outbox')
  {
    forall op | op in s.verifications ensures FromBot(s.verifications[op], outbox') {
      var v := s.verifications[op];
      assert FromBot(v, outbox) && RowEvolves(outbox[v.commandId], outbox'[v.commandId]);
    }
  }

  lemma BotNetGrows(w: World, m: BR.Move, cfg: Settings)
    requires Evolves(w.bot.db.tables.outbox, BR.Next(w.bot, m, cfg.bot).db.tables.outbox)
    ensures var w' := Next(w, AtBot(m), cfg);
            && w'.sessions == w.sessions && w'.bot == BR.Next(w.bot, m, cfg.bot)
            && NetGrows(w.sessions.db, w.bot.db, w.net, w'.sessions.db, w'.bot.db, w'.net)
  {
    if m.step.Publish? { PublisherSends(w.bot.db.tables.outbox, m.step.publisher, m.at); }
  }

  lemma BotMoveKeepsWorld(w: World, m: BR.Move, cfg: Settings)
    requires WorldOk(w, cfg) && Enabled(w, AtBot(m), cfg)
    ensures WorldOk(Next(w, AtBot(m), cfg), cfg)
  {
    var w' := Next(w, AtBot(m), cfg);
    BR.StepKeepsWorld(w.bot, m, cfg.bot);
    BotNetGrows(w, m, cfg);
    BotMoveKeepsVerdicts(w, m, cfg);
    CommandsStay(w.sessions.db, w.bot.db.tables.outbox, w'.bot.db.tables.outbox);
    NetStaysOk(w.sessions.db, w.bot.db, w.net, w'.sessions.db, w'.bot.db, w'.net);
  }

  // ---- all runs ----

  lemma StepKeepsWorld(w: World, move: Move, cfg: Settings)
    requires WorldOk(w, cfg) && Enabled(w, move, cfg)
    ensures WorldOk(Next(w, move, cfg), cfg)
  {
    match move {
      case AtSessions(m) => SessionsMoveKeepsWorld(w, m, cfg);
      case AtBot(m) => BotMoveKeepsWorld(w, m, cfg);
    }
  }

  lemma {:induction false} RunKeepsWorld(w: World, moves: seq<Move>, cfg: Settings)
    requires WorldOk(w, cfg) && EnabledRun(w, moves, cfg)
    ensures WorldOk(Run(w, moves, cfg), cfg)
    decreases |moves|
  {
    if moves != [] {
      StepKeepsWorld(w, moves[0], cfg);
      RunKeepsWorld(Next(w, moves[0], cfg), moves[1..], cfg);
    }
  }

  lemma StartIsOk(cfg: Settings)
    ensures WorldOk(START, cfg)
  {
    BI.EmptyInv(cfg.bot.network);
    SI.EmptyInv();
  }

  lemma ReachableIsOk(moves: seq<Move>, cfg: Settings)
    requires EnabledRun(START, moves, cfg)
    ensures WorldOk(Run(START, moves, cfg), cfg)
  {
    StartIsOk(cfg);
    RunKeepsWorld(START, moves, cfg);
  }

  // ---- what the two databases say about each other ----

  // The authority's session behind a projected one, for the operation that activated it.
  predicate Backed(s: S.Authority, b: B.Flow, id: Id, op: Id) {
    && id in b.projection && BI.ActivatedBy(b, id, op)
    && id in s.sessions && s.sessions[id].status.Active? && s.sessions[id].identity == b.projection[id].balance
    && s.sessions[id].botId == b.projection[id].botId && s.sessions[id].userId == b.projection[id].userId
    && op in s.events && s.events[op].sessionId == id
    && s.events[op].version == b.projection[id].authorityVersion <= s.sessions[id].version
    && s.sessions[id].identity in s.identities
    && s.identities[s.sessions[id].identity].wallet == b.attempts[op].senderWallet
    && s.identities[s.sessions[id].identity].network == b.attempts[op].network
  }

  // The command the authority verified is the one the bot's attempt carries.
  lemma SameCommand(s: S.Authority, b: B.Flow, now: Time, op: Id)
    requires op in s.verifications && SI.VerificationOk(s, op) && FromBot(s.verifications[op], b.tables.outbox)
    requires BI.OutboxRowsOk(b) && BI.CommandsOk(b, now)
    ensures op in b.attempts && BI.CarriesAttempt(s.verifications[op].command, op, b.attempts[op])
    ensures BI.Owned(b, b.attempts[op].sessionId, s.verifications[op].command)
    ensures b.attempts[op].verifyId == Some(s.verifications[op].commandId)
  {}

  lemma ActivatedIsBacked(w: World, id: Id, op: Id)
    requires SI.VerificationsOk(w.sessions.db) && SI.EventsOk(w.sessions.db) && SI.SessionsOk(w.sessions.db)
    requires SI.VersionsOk(w.sessions.db)
    requires CommandsFromBot(w.sessions.db, w.bot.db.tables.outbox) && BI.OutboxRowsOk(w.bot.db)
    requires BI.CommandsOk(w.bot.db, w.bot.now)
    requires id in w.bot.db.projection && BI.ActivatedBy(w.bot.db, id, op) && VerdictAgrees(w.sessions.db, w.bot.db, op)
    ensures Backed(w.sessions.db, w.bot.db, id, op)
  {
    assert SI.VerificationOk(w.sessions.db, op) && SI.EventOk(w.sessions.db, op);
    SameCommand(w.sessions.db, w.bot.db, w.bot.now, op);
    SameUser(w, id);
  }

  // The session belongs to the same Telegram user on both sides.
  lemma SameUser(w: World, id: Id)
    requires SI.VerificationsOk(w.sessions.db) && SI.EventsOk(w.sessions.db) && SI.SessionsOk(w.sessions.db)
    requires SI.VersionsOk(w.sessions.db)
    requires CommandsFromBot(w.sessions.db, w.bot.db.tables.outbox) && BI.OutboxRowsOk(w.bot.db)
    requires BI.CommandsOk(w.bot.db, w.bot.now)
    requires id in w.sessions.db.sessions && id in w.bot.db.projection
    ensures var session, row := w.sessions.db.sessions[id], w.bot.db.projection[id];
            session.botId == row.botId && session.userId == row.userId
  {
    var first := ST.FirstEvent(w.sessions.db, id);
    ST.SessionTellsItsEvents(w.sessions.db, first);
    assert SI.EventOk(w.sessions.db, first) && SI.VerificationOk(w.sessions.db, first);
    SameCommand(w.sessions.db, w.bot.db, w.bot.now, first);
  }

  lemma ProjectedIsBacked(w: World, cfg: Settings, id: Id) returns (op: Id)
    requires WorldOk(w, cfg) && id in w.bot.db.projection
    ensures Backed(w.sessions.db, w.bot.db, id, op)
  {
    op :| BI.ActivatedBy(w.bot.db, id, op);
    ActivatedIsBacked(w, id, op);
  }

  // Two-service safety, over every run with loss, duplication and reordering: a session the bot shows as active
  // is active at the authority for the same balance; the attempt that activated it has its event there, with the
  // version the bot shows, which is not beyond the current one; and the wallet of that attempt is the wallet
  // bound to the balance.
  lemma ProjectionIsBacked(moves: seq<Move>, cfg: Settings, id: Id) returns (op: Id)
    requires EnabledRun(START, moves, cfg) && id in Run(START, moves, cfg).bot.db.projection
    ensures Backed(Run(START, moves, cfg).sessions.db, Run(START, moves, cfg).bot.db, id, op)
  {
    ReachableIsOk(moves, cfg);
    op := ProjectedIsBacked(Run(START, moves, cfg), cfg, id);
  }

  lemma VerifiedIsNotRejected(w: World, op: Id)
    requires SI.VerificationsOk(w.sessions.db) && CommandsFromBot(w.sessions.db, w.bot.db.tables.outbox)
    requires BI.OutboxRowsOk(w.bot.db) && BI.CommandsOk(w.bot.db, w.bot.now)
    requires op in w.sessions.db.verifications && w.sessions.db.verifications[op].status.Verified?
    requires op in w.bot.db.attempts && VerdictAgrees(w.sessions.db, w.bot.db, op)
    ensures !w.bot.db.attempts[op].status.AttemptRejected?
  {}

  // A bot that was told "rejected" and an authority that verified the same operation never coexist.
  lemma VerdictsNeverContradict(w: World, cfg: Settings, op: Id)
    requires WorldOk(w, cfg) && op in w.bot.db.attempts
    requires op in w.sessions.db.verifications && w.sessions.db.verifications[op].status.Verified?
    ensures !w.bot.db.attempts[op].status.AttemptRejected?
  {
    VerifiedIsNotRejected(w, op);
  }

  lemma ArrivingVerify(w: World, m: SR.Move, cfg: Settings)
    requires WorldOk(w, cfg) && Enabled(w, AtSessions(m), cfg) && m.step.DeliverVerify?
    ensures var outbox := w.bot.db.tables.outbox;
            && m.step.id in outbox && outbox[m.step.id].body == VerifyBody(m.step.command)
            && outbox[m.step.id].expiresAt == m.step.expiresAt && outbox[m.step.id].createdAt <= m.at
  {
    ArrivedVerify(w, m.step.id, m.step.command, m.step.expiresAt);
    assert RowOk(w.bot.db.tables.outbox[m.step.id], w.bot.now, cfg.bot.bound);
  }

  // The bot sends one command for an operation and signs it for half an hour more than the offer.
  lemma OnlyVerify(s: S.Authority, b: B.Flow, now: Time, id: Id)
    requires BI.OutboxRowsOk(b) && BI.CommandsOk(b, now) && CommandsFromBot(s, b.tables.outbox) && SI.VerificationsOk(s)
    requires id in b.tables.outbox && b.tables.outbox[id].body.VerifyBody? && id !in s.tables.inbox
    ensures b.tables.outbox[id].body.verify.operationId !in s.verifications
    ensures b.tables.outbox[id].expiresAt
         == TruncateToMicros(b.tables.outbox[id].body.verify.offerExpiresAt + 30 * MINUTE)
  {
    var op := b.tables.outbox[id].body.verify.operationId;
    assert BI.OutboxRowOk(b, id) && BI.VerifyOk(b, op, now);
    if op in s.verifications {
      assert FromBot(s.verifications[op], b.tables.outbox) && SI.VerificationOk(s, op);
      SameCommand(s, b, now, op);
    }
  }

  lemma ValidVerifyIsAccepted(s: S.Authority, network: string, now: Time, id: Id, command: ActivationVerify,
                              expiresAt: Time, topupId: Id)
    requires Domain.ValidateActivation(command, network, now) && Domain.StorableCommand(command)
    requires now < TruncateToMicros(expiresAt)
    requires id !in s.tables.inbox && command.operationId !in s.verifications
    ensures var tx := S.HandleVerify(s, network, now, id, command, expiresAt, topupId);
            tx.Commit? && command.operationId in tx.state.verifications
            && tx.state.verifications[command.operationId].command == command
  {}

  // Every verify command that arrives before its offer expires passes the checks of the sessions service, and the first
  // time it is always accepted: no unique or text column refuses it.
  lemma ArrivingCommandsAreAcceptable(w: World, m: SR.Move, cfg: Settings)
    requires WorldOk(w, cfg) && Enabled(w, AtSessions(m), cfg) && m.step.DeliverVerify?
    requires cfg.sessions.network == cfg.bot.network && m.at < m.step.command.offerExpiresAt
    ensures Domain.ValidateActivation(m.step.command, cfg.sessions.network, m.at)
    ensures m.step.id !in w.sessions.db.tables.inbox ==>
              var tx, op := S.StepTx(w.sessions.db, cfg.sessions.network, m.at, m.step), m.step.command.operationId;
              tx.Commit? && op in tx.state.verifications && tx.state.verifications[op].command == m.step.command
  {
    ArrivingVerify(w, m, cfg);
    var row := w.bot.db.tables.outbox[m.step.id];
    assert BC.AlwaysValid(row.body.verify, cfg.bot.network, row.createdAt);
    if m.step.id !in w.sessions.db.tables.inbox {
      OnlyVerify(w.sessions.db, w.bot.db, w.bot.now, m.step.id);
      ValidVerifyIsAccepted(w.sessions.db, cfg.sessions.network, m.at, m.step.id, m.step.command, m.step.expiresAt,
                            m.step.topupId);
    }
  }
}
