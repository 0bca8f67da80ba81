// Exactly-once effect across both services: without repeated deliveries a run has the same effect, down to the set of
// messages on the wire.
module SystemExactlyOnce {
  import opened Base
  import opened Contracts
  import opened Messages
  import opened MessagesAlike
  import opened System
  import SR = SessionsRuns
  import SX = SessionsExactlyOnce
  import BR = BotRuns
  import BX = BotExactlyOnce

  ghost predicate SameWorld(v: World, w: World) {
    SX.SameWorld(v.sessions, w.sessions) && BX.SameWorld(v.bot, w.bot) && v.net == w.net
  }

  // The message is already in the inbox of the service it is delivered to.
  predicate IsDuplicate(w: World, move: Move) {
    match move
    case AtSessions(m) => SX.IsDuplicate(w.sessions.db, m.step)
    case AtBot(m) => BX.IsDuplicate(w.bot.db, m.step)
  }

  function WithoutDuplicates(w: World, moves: seq<Move>, cfg: Settings): seq<Move>
    decreases |moves|
  {
    if moves == [] then []
    else
      var rest := WithoutDuplicates(Next(w, moves[0], cfg), moves[1..], cfg);
      if IsDuplicate(w, moves[0]) then rest else [moves[0]] + rest
  }

  // ---- what was claimed is on the wire ----

  function EnvelopeOf(outbox: map<Id, OutboxRow>, id: Id): Envelope
    requires id in outbox
  {
    Envelope(id, outbox[id].body, outbox[id].expiresAt)
  }

  ghost predicate ClaimedIsSent(outbox: map<Id, OutboxRow>, net: set<Envelope>) {
    forall id | id in outbox && Claimed(outbox[id]) :: EnvelopeOf(outbox, id) in net
  }

  ghost predicate SentOk(w: World) {
    ClaimedIsSent(w.sessions.db.tables.outbox, w.net) && ClaimedIsSent(w.bot.db.tables.outbox, w.net)
  }

  lemma MoreNet(outbox: map<Id, OutboxRow>, net: set<Envelope>, net': set<Envelope>)
    requires ClaimedIsSent(outbox, net) && net <= net'
    ensures ClaimedIsSent(outbox, net')
  {}

  lemma PublisherSends(outbox: map<Id, OutboxRow>, publisher: PublisherStep, now: Time, net: set<Envelope>)
    requires ClaimedIsSent(outbox, net)
    ensures ClaimedIsSent(PublisherNext(outbox, publisher, now), net + SentBy(outbox, publisher, now))
  {
    var outbox', net' := PublisherNext(outbox, publisher, now), net + SentBy(outbox, publisher, now);
    forall id | id in outbox' && Claimed(outbox'[id]) ensures EnvelopeOf(outbox', id) in net' {
      assert EnvelopeOf(outbox', id) == EnvelopeOf(outbox, id);
      if !Claimed(outbox[id]) { assert publisher.ClaimBatch? && Claimable(outbox[id], now); }
    }
  }

  lemma QuietSends(outbox: map<Id, OutboxRow>, outbox': map<Id, OutboxRow>, now: Time, net: set<Envelope>)
    requires ClaimedIsSent(outbox, net) && ClaimsNothing(outbox, outbox') && AddsPending(outbox, outbox', now)
    requires Evolves(outbox, outbox')
    ensures ClaimedIsSent(outbox', net)
  {
    forall id | id in outbox' && Claimed(outbox'[id]) ensures EnvelopeOf(outbox', id) in net {
      assert id in outbox && RowEvolves(outbox[id], outbox'[id]);
      assert EnvelopeOf(outbox', id) == EnvelopeOf(outbox, id);
    }
  }

  lemma SessionsMoveSends(w: World, m: SR.Move, cfg: Settings)
    requires SR.WorldOk(w.sessions, cfg.sessions) && SR.Enabled(w.sessions, m, cfg.sessions) && SentOk(w)
    ensures SentOk(Next(w, AtSessions(m), cfg))
  {
    var w' := Next(w, AtSessions(m), cfg);
    var outbox, outbox' := w.sessions.db.tables.outbox, w'.sessions.db.tables.outbox;
    if m.step.Publish? {
      PublisherSends(outbox, m.step.publisher, m.at, w.net);
    } else {
      SR.StepKeepsRows(w.sessions, m, cfg.sessions);
      SR.StepContinues(w.sessions, m, cfg.sessions);
      QuietSends(outbox, outbox', m.at, w.net);
    }
    MoreNet(w.bot.db.tables.outbox, w.net, w'.net);
  }

  lemma BotMoveSends(w: World, m: BR.Move, cfg: Settings)
    requires BR.WorldOk(w.bot, cfg.bot) && BR.Enabled(w.bot, m, cfg.bot) && SentOk(w)
    ensures SentOk(Next(w, AtBot(m), cfg))
  {
    var w' := Next(w, AtBot(m), cfg);
    var outbox, outbox' := w.bot.db.tables.outbox, w'.bot.db.tables.outbox;
    if m.step.Publish? {
      PublisherSends(outbox, m.step.publisher, m.at, w.net);
    } else {
      BR.StepKeepsRows(w.bot, m, cfg.bot);
      BR.StepKeepsWorld(w.bot, m, cfg.bot);
      QuietSends(outbox, outbox', m.at, w.net);
    }
    MoreNet(w.sessions.db.tables.outbox, w.net, w'.net);
  }

  // ---- the wire cannot tell the runs apart ----

  // A row that one of two alike outboxes can hand out is handed out by the other one too, or was before.
  lemma SentAlike(row: OutboxRow, row': OutboxRow, start: Time, bound: Time, now: Time)
    requires SameRow(row, row') && RowOk(row', start, bound) && start <= now && Claimable(row, now)
    ensures Claimable(row', now) || Claimed(row')
  {}

  lemma SentByAlike(a: map<Id, OutboxRow>, b: map<Id, OutboxRow>, net: set<Envelope>, start: Time, bound: Time,
                    publisher: PublisherStep, now: Time)
    requires SameCommands(a, b) && OutboxOk(b, start, bound) && start <= now && ClaimedIsSent(b, net)
    ensures SentBy(a, publisher, now) <= net + SentBy(b, publisher, now)
  {
    if publisher.ClaimBatch? {
      forall id | id in publisher.ids && id in a && Claimable(a[id], now)
        ensures EnvelopeOf(a, id) in net + SentBy(b, publisher, now)
      {
        assert SameRow(a[id], b[id]) && RowOk(b[id], start, bound) && EnvelopeOf(a, id) == EnvelopeOf(b, id);
        SentAlike(a[id], b[id], start, bound, now);
      }
    }
  }

  lemma SameRowSymmetric(a: map<Id, OutboxRow>, b: map<Id, OutboxRow>)
    requires SameCommands(a, b)
    ensures SameCommands(b, a)
  {
    forall id | id in b ensures SameRow(b[id], a[id]) { assert SameRow(a[id], b[id]); }
  }

  lemma NetAlike(a: map<Id, OutboxRow>, b: map<Id, OutboxRow>, net: set<Envelope>, startA: Time, startB: Time,
                 bound: Time, publisher: PublisherStep, now: Time)
    requires SameCommands(a, b) && ClaimedIsSent(a, net) && ClaimedIsSent(b, net)
    requires OutboxOk(a, startA, bound) && OutboxOk(b, startB, bound) && startA <= now && startB <= now
    ensures net + SentBy(a, publisher, now) == net + SentBy(b, publisher, now)
  {
    SameRowSymmetric(a, b);
    SentByAlike(a, b, net, startB, bound, publisher, now);
    SentByAlike(b, a, net, startA, bound, publisher, now);
  }

  // ---- runs ----

  ghost predicate Fine(w: World, cfg: Settings) { WorldOk(w, cfg) && SentOk(w) }

  lemma MoveKeepsFine(w: World, move: Move, cfg: Settings)
    requires Fine(w, cfg) && Enabled(w, move, cfg)
    ensures Fine(Next(w, move, cfg), cfg)
  {
    StepKeepsWorld(w, move, cfg);
    match move {
      case AtSessions(m) => SessionsMoveSends(w, m, cfg);
      case AtBot(m) => BotMoveSends(w, m, cfg);
    }
  }

  lemma SessionsMoveAlike(v: World, w: World, m: SR.Move, cfg: Settings)
    requires SameWorld(v, w) && Fine(v, cfg) && Fine(w, cfg) && !IsDuplicate(v, AtSessions(m))
    requires Enabled(v, AtSessions(m), cfg)
    ensures Enabled(w, AtSessions(m), cfg) && SameWorld(Next(v, AtSessions(m), cfg), Next(w, AtSessions(m), cfg))
  {
    SX.MoveAlike(v.sessions, w.sessions, m, cfg.sessions);
    if m.step.Publish? {
      NetAlike(v.sessions.db.tables.outbox, w.sessions.db.tables.outbox, v.net, v.sessions.now, w.sessions.now,
               cfg.sessions.bound,
               m.step.publisher, m.at);
    }
  }

  lemma BotMoveAlike(v: World, w: World, m: BR.Move, cfg: Settings)
    requires SameWorld(v, w) && Fine(v, cfg) && Fine(w, cfg) && !IsDuplicate(v, AtBot(m)) && Enabled(v, AtBot(m), cfg)
    ensures Enabled(w, AtBot(m), cfg) && SameWorld(Next(v, AtBot(m), cfg), Next(w, AtBot(m), cfg))
  {
    BX.MoveAlike(v.bot, w.bot, m, cfg.bot);
    if m.step.Publish? {
      NetAlike(v.bot.db.tables.outbox, w.bot.db.tables.outbox, v.net, v.bot.now, w.bot.now, cfg.bot.bound,
               m.step.publisher, m.at);
    }
  }

  lemma DuplicateAtSessions(v: World, w: World, m: SR.Move, cfg: Settings)
    requires SX.SameWorld(v.sessions, w.sessions) && SR.WorldOk(v.sessions, cfg.sessions)
    requires SR.Enabled(v.sessions, m, cfg.sessions) && SX.IsDuplicate(v.sessions.db, m.step)
    ensures SX.SameWorld(SR.Next(v.sessions, m, cfg.sessions), w.sessions)
  {
    SX.DuplicateKeepsCore(v.sessions, m, cfg.sessions);
    SX.SameCoreTransitive(SR.Next(v.sessions, m, cfg.sessions).db, v.sessions.db, w.sessions.db);
  }

  lemma DuplicateLeavesWorld(v: World, w: World, move: Move, cfg: Settings)
    requires SameWorld(v, w) && Fine(v, cfg) && IsDuplicate(v, move) && Enabled(v, move, cfg)
    ensures SameWorld(Next(v, move, cfg), w)
  {
    match move {
      case AtSessions(m) => DuplicateAtSessions(v, w, m, cfg);
      case AtBot(m) => BX.DuplicateLeavesWorld(v.bot, w.bot, m, cfg.bot);
    }
  }

  // One move of the longer run, and what it is in the shorter one: nothing, or the same move.
  lemma Advance(v: World, w: World, move: Move, cfg: Settings)
    requires SameWorld(v, w) && Fine(v, cfg) && Fine(w, cfg) && Enabled(v, move, cfg)
    ensures Fine(Next(v, move, cfg), cfg)
    ensures IsDuplicate(v, move) ==> SameWorld(Next(v, move, cfg), w)
    ensures !IsDuplicate(v, move) ==>
              && Enabled(w, move, cfg) && Fine(Next(w, move, cfg), cfg)
              && SameWorld(Next(v, move, cfg), Next(w, move, cfg))
  {
    MoveKeepsFine(v, move, cfg);
    if IsDuplicate(v, move) {
      DuplicateLeavesWorld(v, w, move, cfg);
    } else {
      match move {
        case AtSessions(m) => SessionsMoveAlike(v, w, m, cfg);
        case AtBot(m) => BotMoveAlike(v, w, m, cfg);
      }
      MoveKeepsFine(w, move, cfg);
    }
  }

  lemma {:induction false} RunAlike(v: World, w: World, moves: seq<Move>, cfg: Settings)
    requires SameWorld(v, w) && Fine(v, cfg) && Fine(w, cfg) && EnabledRun(v, moves, cfg)
    ensures EnabledRun(w, WithoutDuplicates(v, moves, cfg), cfg)
    ensures SameWorld(Run(v, moves, cfg), Run(w, WithoutDuplicates(v, moves, cfg), cfg))
    decreases |moves|
  {
    if moves != [] {
      var v' := Next(v, moves[0], cfg);
      Advance(v, w, moves[0], cfg);
      if IsDuplicate(v, moves[0]) {
        RunAlike(v', w, moves[1..], cfg);
      } else {
        RunAlike(v', Next(w, moves[0], cfg), moves[1..], cfg);
        assert ([moves[0]] + WithoutDuplicates(v', moves[1..], cfg))[1..] == WithoutDuplicates(v', moves[1..], cfg);
      }
    }
  }

  lemma StartIsFine(cfg: Settings)
    ensures Fine(START, cfg) && SameWorld(START, START)
  {
    StartIsOk(cfg);
  }

  // Dropping from a run of both services every delivery whose message id its receiver already has gives another legal
  // run with the same messages on the wire, and with databases that differ only in when RESULT rows are published.
  lemma DuplicatesHaveNoEffect(moves: seq<Move>, cfg: Settings)
    requires EnabledRun(START, moves, cfg)
    ensures var reduced := WithoutDuplicates(START, moves, cfg);
            EnabledRun(START, reduced, cfg) && SameWorld(Run(START, moves, cfg), Run(START, reduced, cfg))
  {
    StartIsFine(cfg);
    RunAlike(START, START, moves, cfg);
  }
}
