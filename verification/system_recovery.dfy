// A result that was lost on its way to the bot: when it can still be had, and how.
module SystemRecovery {
  import opened Base
  import opened Contracts
  import opened Messages
  import opened System
  import S = Sessions
  import SI = SessionsInvariant
  import SH = SessionsHistory
  import SR = SessionsRuns
  import ST = SessionsTheorems
  import B = Bot
  import BI = BotInvariant
  import BL = BotLive
  import BR = BotRuns
  import BC = BotContract
  import Domain
  import SystemTheorems

  // ---- a decision is later than its command ----

  predicate DecidedAfterCommand(v: S.Verification, outbox: map<Id, OutboxRow>) {
    v.completedAt.Some? && v.commandId in outbox ==> outbox[v.commandId].createdAt <= v.completedAt.value
  }

  ghost predicate DecidedAfterCommands(s: S.Authority, outbox: map<Id, OutboxRow>) {
    forall op | op in s.verifications :: DecidedAfterCommand(s.verifications[op], outbox)
  }

  // A decision that was not there before the step is dated by the step.
  lemma NewDecisionIsNow(s: S.Authority, s': S.Authority, now: Time, op: Id)
    requires op in s'.verifications && SI.VerificationOk(s', op) && !SI.Undecided(s', op)
    requires op in s.verifications ==> SI.Undecided(s, op)
    requires SI.OutboxRowsOk(s) && Evolves(s.tables.outbox, s'.tables.outbox)
    requires AddsPending(s.tables.outbox, s'.tables.outbox, now)
    ensures s'.verifications[op].completedAt == Some(now)
  {
    var r := ST.ResultOf(s', op).value;
    assert r in s.tables.outbox ==> RowEvolves(s.tables.outbox[r], s'.tables.outbox[r]);
    assert r in s.tables.outbox ==> SI.OutboxRowOk(s, r);
  }

  lemma SessionsMoveKeepsOrder(w: World, m: SR.Move, cfg: Settings)
    requires WorldOk(w, cfg) && Enabled(w, AtSessions(m), cfg)
    requires DecidedAfterCommands(w.sessions.db, w.bot.db.tables.outbox)
    ensures DecidedAfterCommands(SR.Next(w.sessions, m, cfg.sessions).db, w.bot.db.tables.outbox)
  {
    var s, s', outbox := w.sessions.db, SR.Next(w.sessions, m, cfg.sessions).db, w.bot.db.tables.outbox;
    SR.StepKeepsWorld(w.sessions, m, cfg.sessions);
    SR.StepKeepsRows(w.sessions, m, cfg.sessions);
    forall op | op in s'.verifications ensures DecidedAfterCommand(s'.verifications[op], outbox) {
      assert SI.VerificationOk(s', op);
      if op in s.verifications && !SI.Undecided(s, op) {
        assert SH.VerificationContinues(s.verifications[op], s'.verifications[op]);
        assert DecidedAfterCommand(s.verifications[op], outbox);
      } else if !SI.Undecided(s', op) {
        NewDecisionIsNow(s, s', m.at, op);
        CommandIsOlder(outbox, w.bot.now, cfg.bot.bound, s'.verifications[op].commandId, m.at);
      }
    }
  }

  lemma CommandIsOlder(outbox: map<Id, OutboxRow>, now: Time, bound: Time, id: Id, at: Time)
    requires OutboxOk(outbox, now, bound) && now <= at
    ensures id in outbox ==> outbox[id].createdAt <= at
  {
    assert id in outbox ==> RowOk(outbox[id], now, bound);
  }

  lemma BotMoveKeepsOrder(s: S.Authority, outbox: map<Id, OutboxRow>, outbox': map<Id, OutboxRow>)
    requires DecidedAfterCommands(s, outbox) && CommandsFromBot(s, outbox) && Evolves(outbox, outbox')
    ensures DecidedAfterCommands(s, outbox')
  {
    forall op | op in s.verifications ensures DecidedAfterCommand(s.verifications[op], outbox') {
      var v := s.verifications[op];
      assert FromBot(v, outbox) && DecidedAfterCommand(v, outbox);
      assert RowEvolves(outbox[v.commandId], outbox'[v.commandId]);
    }
  }

  // ---- all runs ----

  ghost predicate Recoverable(w: World) {
    DecidedAfterCommands(w.sessions.db, w.bot.db.tables.outbox) && BL.AwaitedAreLive(w.bot.db)
  }

  lemma StepKeepsRecoverable(w: World, move: Move, cfg: Settings)
    requires WorldOk(w, cfg) && Enabled(w, move, cfg) && Recoverable(w)
    ensures Recoverable(Next(w, move, cfg))
  {
    match move {
      case AtSessions(m) => SessionsMoveKeepsOrder(w, m, cfg);
      case AtBot(m) =>
        BR.StepKeepsWorld(w.bot, m, cfg.bot);
        BotMoveKeepsOrder(w.sessions.db, w.bot.db.tables.outbox, BR.Next(w.bot, m, cfg.bot).db.tables.outbox);
        BL.StepKeepsLive(w.bot, m, cfg.bot);
    }
  }

  lemma {:induction false} RunKeepsRecoverable(w: World, moves: seq<Move>, cfg: Settings)
    requires WorldOk(w, cfg) && EnabledRun(w, moves, cfg) && Recoverable(w)
    ensures Recoverable(Run(w, moves, cfg))
    decreases |moves|
  {
    if moves != [] {
      StepKeepsWorld(w, moves[0], cfg);
      StepKeepsRecoverable(w, moves[0], cfg);
      RunKeepsRecoverable(Next(w, moves[0], cfg), moves[1..], cfg);
    }
  }

  // ---- what a repeated command does ----

  predicate IsDecided(s: S.Authority, op: Id) {
    op in s.verifications && !SI.Undecided(s, op)
  }

  // The command is valid exactly while its offer lasts, and the result of a decision lasts longer.
  lemma ValidExactlyIfOffered(command: ActivationVerify, network: string, created: Time, decided: Time, at: Time)
    requires BC.AlwaysValid(command, network, created) && created <= decided && created <= at
    ensures Domain.ValidateActivation(command, network, at) <==> at < command.offerExpiresAt
    ensures at < command.offerExpiresAt ==>
              at < TruncateToMicros(command.offerExpiresAt + 30 * MINUTE) && at < TruncateToMicros(decided + 24 * HOUR)
  {
    assert created < command.offerExpiresAt ==> Domain.ValidateActivation(command, network, created);
  }

  // The bot's row behind a verification.
  ghost predicate CommandStands(v: S.Verification, b: B.Flow, network: string, now: Time, op: Id) {
    && v.commandId in b.tables.outbox
    && var row := b.tables.outbox[v.commandId];
    && row.body == VerifyBody(v.command) && row.createdAt <= now
    && BC.AlwaysValid(v.command, network, row.createdAt)
    && row.expiresAt == TruncateToMicros(v.command.offerExpiresAt + 30 * MINUTE)
    && op in b.attempts && b.attempts[op].verifyId == Some(v.commandId)
    && b.attempts[op].sessionId == v.command.sessionId
  }

  lemma RowStands(s: S.Authority, b: B.Flow, network: string, now: Time, bound: Time, op: Id)
    requires op in s.verifications && SI.VerificationOk(s, op) && FromBot(s.verifications[op], b.tables.outbox)
    requires BI.OutboxRowsOk(b) && BI.CommandsOk(b, now) && BC.VerifyRowsValid(b, network)
    requires OutboxOk(b.tables.outbox, now, bound)
    ensures CommandStands(s.verifications[op], b, network, now, op)
  {
    SameCommand(s, b, now, op);
    assert BI.VerifyOk(b, op, now);
    CommandIsOlder(b.tables.outbox, now, bound, s.verifications[op].commandId, now);
  }

  lemma CommandRow(w: World, cfg: Settings, op: Id)
    requires WorldOk(w, cfg) && op in w.sessions.db.verifications
    ensures CommandStands(w.sessions.db.verifications[op], w.bot.db, cfg.bot.network, w.bot.now, op)
  {
    assert SI.VerificationOk(w.sessions.db, op) && FromBot(w.sessions.db.verifications[op], w.bot.db.tables.outbox);
    RowStands(w.sessions.db, w.bot.db, cfg.bot.network, w.bot.now, cfg.bot.bound, op);
  }

  // What a repeat of the command of a decided operation comes to.
  ghost predicate RepublishedIfOffered(s: S.Authority, v: S.Verification, network: string, at: Time, expiresAt: Time,
                                       topupId: Id, result: Option<Id>)
  {
    && result.Some?
    && (ST.Republished(S.HandleVerify(s, network, at, v.commandId, v.command, expiresAt, topupId), result.value, at)
        <==> at < v.command.offerExpiresAt)
  }

  lemma RepeatIsAnswered(w: SR.World, cfg: SR.Settings, b: B.Flow, now: Time, op: Id, at: Time, topupId: Id)
    requires SR.WorldOk(w, cfg) && w.now <= at && now <= at && IsDecided(w.db, op)
    requires CommandStands(w.db.verifications[op], b, cfg.network, now, op)
    requires DecidedAfterCommand(w.db.verifications[op], b.tables.outbox)
    ensures var v := w.db.verifications[op];
            && v.commandId in w.db.tables.inbox
            && RepublishedIfOffered(w.db, v, cfg.network, at, b.tables.outbox[v.commandId].expiresAt, topupId,
                                    ST.ResultOf(w.db, op))
  {
    var v := w.db.verifications[op];
    var row := b.tables.outbox[v.commandId];
    ST.RepeatedVerifyIsAnsweredExactlyIf(w, cfg, op, at, row.expiresAt, topupId);
    ValidExactlyIfOffered(v.command, cfg.network, row.createdAt, v.completedAt.value, at);
  }

  // Delivered once more, the bot's command has the result of a decided operation published again exactly if its
  // offer has not expired.
  lemma ResultIsRepublishedExactlyIfOffered(w: World, cfg: Settings, op: Id, at: Time, topupId: Id)
    requires WorldOk(w, cfg) && Recoverable(w) && cfg.sessions.network == cfg.bot.network
    requires w.sessions.now <= at && w.bot.now <= at && IsDecided(w.sessions.db, op)
    ensures var s, v := w.sessions.db, w.sessions.db.verifications[op];
            && v.commandId in s.tables.inbox && v.commandId in w.bot.db.tables.outbox
            && RepublishedIfOffered(s, v, cfg.sessions.network, at, w.bot.db.tables.outbox[v.commandId].expiresAt,
                                    topupId, ST.ResultOf(s, op))
  {
    CommandRow(w, cfg, op);
    assert DecidedAfterCommand(w.sessions.db.verifications[op], w.bot.db.tables.outbox);
    RepeatIsAnswered(w.sessions, cfg.sessions, w.bot.db, w.bot.now, op, at, topupId);
  }

  // ---- the way back ----

  // The result of a verified operation, as stored.
  function StoredResult(s: S.Authority, op: Id): (e: Envelope)
    requires op in s.verifications && s.verifications[op].commandId in s.tables.inbox
    requires ST.ResultOf(s, op).Some? && ST.ResultOf(s, op).value in s.tables.outbox
  {
    var r := ST.ResultOf(s, op).value;
    Envelope(r, s.tables.outbox[r].body, s.tables.outbox[r].expiresAt)
  }

  function StoredCommand(b: B.Flow, id: Id): (e: Envelope)
    requires id in b.tables.outbox
  {
    Envelope(id, b.tables.outbox[id].body, b.tables.outbox[id].expiresAt)
  }

  // The bot sends its command again, the authority finds it in its inbox, sends its result again, and
  // the bot handles it.
  function Recovery(command: Envelope, result: Envelope, at: Time, topupId: Id): seq<Move>
    requires command.body.VerifyBody? && result.body.ActivatedBody?
  {
    [Ask(command, at)] + ([Repeat(command, at, topupId)] + ([Answer(result, at)] + [Finish(result, at)]))
  }

  lemma BotSends(w: World, cfg: Settings, id: Id, at: Time)
    requires w.sessions.now <= at && w.bot.now <= at && B.ValidSettings(cfg.bot)
    requires id in w.bot.db.tables.outbox && Claimable(w.bot.db.tables.outbox[id], at)
    ensures var move := AtBot(BR.Move(at, B.Publish(ClaimBatch({id}))));
            var w' := Next(w, move, cfg);
            && Enabled(w, move, cfg) && w'.sessions == w.sessions && w'.bot.now == at
            && StoredCommand(w.bot.db, id) in w'.net
            && w'.bot.db.attempts == w.bot.db.attempts && w'.bot.db.tables.inbox == w.bot.db.tables.inbox
  {
    assert StoredCommand(w.bot.db, id) in SentBy(w.bot.db.tables.outbox, ClaimBatch({id}), at);
  }

  lemma AuthorityRepeats(w: World, cfg: Settings, command: Envelope, at: Time, topupId: Id)
    requires w.sessions.now <= at && w.bot.now <= at && LEASE <= cfg.sessions.bound
    requires command in w.net && command.body.VerifyBody? && topupId !in w.sessions.db.tables.outbox
    ensures var move := AtSessions(SR.Move(at, S.DeliverVerify(command.id, command.body.verify, command.expiresAt,
                                                               topupId)));
            var w' := Next(w, move, cfg);
            && Enabled(w, move, cfg) && w'.bot == w.bot && w'.net == w.net && w'.sessions.now == at
            && w'.sessions.db == S.HandleVerify(w.sessions.db, cfg.sessions.network, at, command.id,
                                                command.body.verify, command.expiresAt, topupId).After(w.sessions.db)
  {}

  lemma AuthoritySends(w: World, cfg: Settings, id: Id, at: Time)
    requires w.sessions.now <= at && w.bot.now <= at && LEASE <= cfg.sessions.bound
    requires id in w.sessions.db.tables.outbox && Claimable(w.sessions.db.tables.outbox[id], at)
    ensures var move := AtSessions(SR.Move(at, S.Publish(ClaimBatch({id}))));
            var w' := Next(w, move, cfg);
            var row := w.sessions.db.tables.outbox[id];
            && Enabled(w, move, cfg) && w'.bot == w.bot && w'.sessions.now == at
            && Envelope(id, row.body, row.expiresAt) in w'.net
  {
    var row := w.sessions.db.tables.outbox[id];
    assert Envelope(id, row.body, row.expiresAt) in SentBy(w.sessions.db.tables.outbox, ClaimBatch({id}), at);
  }

  // The bot awaits this result and has not got it.
  predicate Awaits(w: World, result: Envelope, at: Time) {
    && w.sessions.now <= at && w.bot.now <= at && result.body.ActivatedBody? && result.id !in w.bot.db.tables.inbox
    && var op := result.body.activated.operationId;
    op in w.bot.db.attempts && w.bot.db.attempts[op].status.AwaitingVerification?
  }

  predicate Shows(w: World, activated: Activated) {
    BI.ActivatedBy(w.bot.db, activated.sessionId, activated.operationId)
  }

  ghost predicate Succeeds(w: World, moves: seq<Move>, cfg: Settings, activated: Activated) {
    EnabledRun(w, moves, cfg) && Shows(Run(w, moves, cfg), activated)
  }

  lemma BotShows(w: World, cfg: Settings, result: Envelope, at: Time)
    requires WorldOk(w, cfg) && B.ValidSettings(cfg.bot) && Awaits(w, result, at) && result in w.net
    ensures Enabled(w, Finish(result, at), cfg)
    ensures Shows(Next(w, Finish(result, at), cfg), result.body.activated)
  {
    SystemTheorems.ResultIsShownExactlyIfNotExpired(w, cfg, at, result.id, result.body.activated, result.expiresAt);
  }

  lemma Last(w: World, move: Move, cfg: Settings)
    requires Enabled(w, move, cfg)
    ensures EnabledRun(w, [move], cfg) && Run(w, [move], cfg) == Next(w, move, cfg)
  {
    assert [move][1..] == [];
  }

  lemma BotCompletes(w: World, cfg: Settings, result: Envelope, at: Time)
    requires WorldOk(w, cfg) && B.ValidSettings(cfg.bot) && Awaits(w, result, at) && result in w.net
    ensures Succeeds(w, [Finish(result, at)], cfg, result.body.activated)
  {
    BotShows(w, cfg, result, at);
    Last(w, Finish(result, at), cfg);
  }

  // A verified operation whose result the bot awaits and has not got, at a moment when its command is due
  // and its offer lasts.
  predicate Lost(w: World, op: Id, at: Time) {
    var s, b := w.sessions.db, w.bot.db;
    && ST.IsVerified(s, op) && op in b.attempts && b.attempts[op].status.AwaitingVerification?
    && var v := s.verifications[op];
    && v.commandId in b.tables.outbox && DueAt(b.tables.outbox[v.commandId]) <= at < v.command.offerExpiresAt
    && v.commandId in s.tables.inbox && ST.ResultOf(s, op).Some? && ST.ResultOf(s, op).value in s.tables.outbox
    && ST.ResultOf(s, op).value !in b.tables.inbox && w.sessions.now <= at && w.bot.now <= at
  }

  lemma CommandIsDue(w: World, cfg: Settings, op: Id, at: Time)
    requires WorldOk(w, cfg) && BL.AwaitedAreLive(w.bot.db) && Lost(w, op, at)
    ensures var id := w.sessions.db.verifications[op].commandId;
            && Claimable(w.bot.db.tables.outbox[id], at)
            && w.bot.db.tables.outbox[id].body == VerifyBody(w.sessions.db.verifications[op].command)
  {
    CommandRow(w, cfg, op);
    BL.AwaitedIsSent(w.bot, cfg.bot, op);
  }

  lemma ResultNames(w: World, cfg: Settings, op: Id, at: Time)
    requires WorldOk(w, cfg) && Lost(w, op, at)
    ensures var body := StoredResult(w.sessions.db, op).body;
            body.ActivatedBody? && body.activated.operationId == op
            && body.activated.sessionId == w.bot.db.attempts[op].sessionId
  {
    CommandRow(w, cfg, op);
    assert SI.VerificationOk(w.sessions.db, op);
  }

  lemma Then(w: World, move: Move, rest: seq<Move>, cfg: Settings)
    requires Enabled(w, move, cfg) && EnabledRun(Next(w, move, cfg), rest, cfg)
    ensures EnabledRun(w, [move] + rest, cfg) && Run(w, [move] + rest, cfg) == Run(Next(w, move, cfg), rest, cfg)
  {
    assert ([move] + rest)[1..] == rest;
  }

  // What the first three moves leave alone at the bot.
  predicate StillAwaits(w: World, w': World, at: Time) {
    && w'.sessions.now <= at && w'.bot.now <= at
    && w'.bot.db.attempts == w.bot.db.attempts && w'.bot.db.tables.inbox == w.bot.db.tables.inbox
  }

  function Ask(command: Envelope, at: Time): Move {
    AtBot(BR.Move(at, B.Publish(ClaimBatch({command.id}))))
  }

  function Repeat(command: Envelope, at: Time, topupId: Id): Move
    requires command.body.VerifyBody?
  {
    AtSessions(SR.Move(at, S.DeliverVerify(command.id, command.body.verify, command.expiresAt, topupId)))
  }

  function Answer(result: Envelope, at: Time): Move {
    AtSessions(SR.Move(at, S.Publish(ClaimBatch({result.id}))))
  }

  function Finish(result: Envelope, at: Time): Move
    requires result.body.ActivatedBody?
  {
    AtBot(BR.Move(at, B.DeliverActivated(result.id, result.body.activated, result.expiresAt)))
  }

  lemma CommandReturns(w: World, cfg: Settings, op: Id, at: Time)
    requires WorldOk(w, cfg) && BL.AwaitedAreLive(w.bot.db) && Lost(w, op, at) && B.ValidSettings(cfg.bot)
    ensures var command := StoredCommand(w.bot.db, w.sessions.db.verifications[op].commandId);
            var w' := Next(w, Ask(command, at), cfg);
            && command.body == VerifyBody(w.sessions.db.verifications[op].command)
            && Enabled(w, Ask(command, at), cfg) && WorldOk(w', cfg) && StillAwaits(w, w', at)
            && w'.sessions == w.sessions && command in w'.net
  {
    CommandIsDue(w, cfg, op, at);
    BotSends(w, cfg, w.sessions.db.verifications[op].commandId, at);
    StepKeepsWorld(w, Ask(StoredCommand(w.bot.db, w.sessions.db.verifications[op].commandId), at), cfg);
  }

  // The row behind an envelope can be claimed.
  predicate Claims(outbox: map<Id, OutboxRow>, e: Envelope, at: Time) {
    SentFrom(outbox, e) && Claimable(outbox[e.id], at)
  }

  lemma RepeatIsTaken(w: World, cfg: Settings, command: Envelope, result: Envelope, at: Time, topupId: Id)
    requires WorldOk(w, cfg) && w.sessions.now <= at && w.bot.now <= at && LEASE <= cfg.sessions.bound
    requires command in w.net && command.body.VerifyBody? && topupId !in w.sessions.db.tables.outbox
    requires SentFrom(w.sessions.db.tables.outbox, result)
    requires ST.Republished(S.HandleVerify(w.sessions.db, cfg.sessions.network, at, command.id, command.body.verify,
                                           command.expiresAt, topupId), result.id, at)
    ensures var w' := Next(w, Repeat(command, at, topupId), cfg);
            && Enabled(w, Repeat(command, at, topupId), cfg) && WorldOk(w', cfg) && StillAwaits(w, w', at)
            && Claims(w'.sessions.db.tables.outbox, result, at)
  {
    var move := Repeat(command, at, topupId);
    AuthorityRepeats(w, cfg, command, at, topupId);
    StepKeepsWorld(w, move, cfg);
    SR.StepContinues(w.sessions, move.atSessions, cfg.sessions);
    SentStays(w.sessions.db.tables.outbox, Next(w, move, cfg).sessions.db.tables.outbox, result);
  }

  lemma AnswerIsSent(w: World, cfg: Settings, result: Envelope, at: Time)
    requires WorldOk(w, cfg) && w.sessions.now <= at && w.bot.now <= at && LEASE <= cfg.sessions.bound
    requires Claims(w.sessions.db.tables.outbox, result, at)
    ensures var w' := Next(w, Answer(result, at), cfg);
            && Enabled(w, Answer(result, at), cfg) && WorldOk(w', cfg) && StillAwaits(w, w', at) && result in w'.net
  {
    AuthoritySends(w, cfg, result.id, at);
    StepKeepsWorld(w, Answer(result, at), cfg);
  }

  // What the authority makes of the repeated command.
  lemma RepeatIsAnsweredFor(w: World, cfg: Settings, op: Id, at: Time, topupId: Id)
    requires WorldOk(w, cfg) && Recoverable(w) && cfg.sessions.network == cfg.bot.network && Lost(w, op, at)
    ensures var v := w.sessions.db.verifications[op];
            ST.Republished(S.HandleVerify(w.sessions.db, cfg.sessions.network, at, v.commandId, v.command,
                                          w.bot.db.tables.outbox[v.commandId].expiresAt, topupId),
                           ST.ResultOf(w.sessions.db, op).value, at)
  {
    ResultIsRepublishedExactlyIfOffered(w, cfg, op, at, topupId);
  }

  lemma FromClaim(w: World, cfg: Settings, result: Envelope, at: Time)
    requires WorldOk(w, cfg) && B.ValidSettings(cfg.bot) && LEASE <= cfg.sessions.bound && Awaits(w, result, at)
    requires Claims(w.sessions.db.tables.outbox, result, at)
    ensures Succeeds(w, [Answer(result, at)] + [Finish(result, at)], cfg, result.body.activated)
  {
    AnswerIsSent(w, cfg, result, at);
    BotCompletes(Next(w, Answer(result, at), cfg), cfg, result, at);
    Then(w, Answer(result, at), [Finish(result, at)], cfg);
  }

  // The command is on the wire, and handling it makes the result claimable.
  predicate Ready(w: World, network: string, command: Envelope, result: Envelope, at: Time, topupId: Id) {
    && command in w.net && command.body.VerifyBody? && topupId !in w.sessions.db.tables.outbox
    && SentFrom(w.sessions.db.tables.outbox, result)
    && ST.Republished(S.HandleVerify(w.sessions.db, network, at, command.id, command.body.verify, command.expiresAt,
                                     topupId), result.id, at)
  }

  lemma FromWire(w: World, cfg: Settings, command: Envelope, result: Envelope, at: Time, topupId: Id)
    requires WorldOk(w, cfg) && B.ValidSettings(cfg.bot) && LEASE <= cfg.sessions.bound && Awaits(w, result, at)
    requires Ready(w, cfg.sessions.network, command, result, at, topupId)
    ensures Succeeds(w, [Repeat(command, at, topupId)] + ([Answer(result, at)] + [Finish(result, at)]), cfg,
                     result.body.activated)
  {
    RepeatIsTaken(w, cfg, command, result, at, topupId);
    FromClaim(Next(w, Repeat(command, at, topupId), cfg), cfg, result, at);
    Then(w, Repeat(command, at, topupId), [Answer(result, at)] + [Finish(result, at)], cfg);
  }

  lemma SentIsReady(w: World, w': World, network: string, op: Id, command: Envelope, result: Envelope, at: Time,
                    topupId: Id)
    requires Lost(w, op, at) && Awaits(w, result, at) && StillAwaits(w, w', at) && w'.sessions == w.sessions
    requires command == StoredCommand(w.bot.db, w.sessions.db.verifications[op].commandId) && command in w'.net
    requires command.body == VerifyBody(w.sessions.db.verifications[op].command)
    requires result == StoredResult(w.sessions.db, op) && topupId !in w.sessions.db.tables.outbox
    requires ST.Republished(S.HandleVerify(w.sessions.db, network, at, command.id, command.body.verify,
                                           command.expiresAt, topupId), result.id, at)
    ensures Awaits(w', result, at) && Ready(w', network, command, result, at, topupId)
  {}

  lemma AskedIsReady(w: World, cfg: Settings, op: Id, command: Envelope, result: Envelope, at: Time, topupId: Id)
    requires WorldOk(w, cfg) && Recoverable(w) && cfg.sessions.network == cfg.bot.network && Lost(w, op, at)
    requires B.ValidSettings(cfg.bot) && topupId !in w.sessions.db.tables.outbox
    requires command == StoredCommand(w.bot.db, w.sessions.db.verifications[op].commandId)
    requires result == StoredResult(w.sessions.db, op) && Awaits(w, result, at)
    ensures var w' := Next(w, Ask(command, at), cfg);
            && Enabled(w, Ask(command, at), cfg) && WorldOk(w', cfg) && Awaits(w', result, at)
            && Ready(w', cfg.sessions.network, command, result, at, topupId)
  {
    CommandReturns(w, cfg, op, at);
    RepeatIsAnsweredFor(w, cfg, op, at, topupId);
    SentIsReady(w, Next(w, Ask(command, at), cfg), cfg.sessions.network, op, command, result, at, topupId);
  }

  lemma FromDue(w: World, cfg: Settings, op: Id, command: Envelope, result: Envelope, at: Time, topupId: Id)
    requires WorldOk(w, cfg) && Recoverable(w) && cfg.sessions.network == cfg.bot.network && Lost(w, op, at)
    requires B.ValidSettings(cfg.bot) && LEASE <= cfg.sessions.bound && topupId !in w.sessions.db.tables.outbox
    requires command == StoredCommand(w.bot.db, w.sessions.db.verifications[op].commandId)
    requires result == StoredResult(w.sessions.db, op) && Awaits(w, result, at)
    ensures command.body.VerifyBody? && Succeeds(w, Recovery(command, result, at, topupId), cfg, result.body.activated)
  {
    AskedIsReady(w, cfg, op, command, result, at, topupId);
    FromWire(Next(w, Ask(command, at), cfg), cfg, command, result, at, topupId);
    Then(w, Ask(command, at), [Repeat(command, at, topupId)] + ([Answer(result, at)] + [Finish(result, at)]), cfg);
  }

  // The run that recovers a result from here.
  ghost predicate Recovers(w: World, cfg: Settings, op: Id, at: Time, topupId: Id)
    requires Lost(w, op, at)
  {
    var command := StoredCommand(w.bot.db, w.sessions.db.verifications[op].commandId);
    var result := StoredResult(w.sessions.db, op);
    && command.body.VerifyBody? && result.body.ActivatedBody?
    && var moves := Recovery(command, result, at, topupId);
    EnabledRun(w, moves, cfg) && BI.ActivatedBy(Run(w, moves, cfg).bot.db, w.bot.db.attempts[op].sessionId, op)
  }

  lemma RecoveredFrom(w: World, cfg: Settings, op: Id, at: Time, topupId: Id)
    requires WorldOk(w, cfg) && Recoverable(w) && cfg.sessions.network == cfg.bot.network && Lost(w, op, at)
    requires B.ValidSettings(cfg.bot) && LEASE <= cfg.sessions.bound && topupId !in w.sessions.db.tables.outbox
    ensures Recovers(w, cfg, op, at, topupId)
  {
    var result := StoredResult(w.sessions.db, op);
    var command := StoredCommand(w.bot.db, w.sessions.db.verifications[op].commandId);
    ResultNames(w, cfg, op, at);
    FromDue(w, cfg, op, command, result, at, topupId);
  }

  lemma ReachableIsRecoverable(moves: seq<Move>, cfg: Settings)
    requires EnabledRun(START, moves, cfg)
    ensures WorldOk(Run(START, moves, cfg), cfg) && Recoverable(Run(START, moves, cfg))
  {
    StartIsOk(cfg);
    ReachableIsOk(moves, cfg);
    RunKeepsRecoverable(START, moves, cfg);
  }

  // A lost result can be had again, whatever happened before: as long as the offer lasts, four more moves have the
  // command repeated, answered from the inbox, and the session shown as active by the bot.
  lemma LostResultIsRecovered(moves: seq<Move>, cfg: Settings, op: Id, at: Time, topupId: Id)
    requires EnabledRun(START, moves, cfg) && Lost(Run(START, moves, cfg), op, at)
    requires cfg.sessions.network == cfg.bot.network && B.ValidSettings(cfg.bot) && LEASE <= cfg.sessions.bound
    requires topupId !in Run(START, moves, cfg).sessions.db.tables.outbox
    ensures Recovers(Run(START, moves, cfg), cfg, op, at, topupId)
  {
    ReachableIsRecoverable(moves, cfg);
    RecoveredFrom(Run(START, moves, cfg), cfg, op, at, topupId);
  }
}
