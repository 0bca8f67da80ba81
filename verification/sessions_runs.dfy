// Runs of the authority: any finite sequence of enabled steps, with lost, repeated and reordered deliveries.
module SessionsRuns {
  import opened Base
  import opened Contracts
  import opened Messages
  import opened Sessions
  import opened SessionsInvariant
  import opened SessionsCases
  import opened SessionsSteps
  import opened SessionsMachine
  import opened SessionsHistory

  // The database, the clock, and everything the reconciler has read so far.
  datatype World = World(db: Authority, now: Time, seen: set<Seen>)
  datatype Move = Move(at: Time, step: Step)
  datatype Settings = Settings(network: string, bound: Time)

  const START: World := World(EMPTY, 0, {})

  // Ids generated by the service are new; the clock does not run backwards; the reconciler acts on what it read.
  ghost predicate Enabled(w: World, move: Move, cfg: Settings) {
    && w.now <= move.at && LEASE <= cfg.bound
    && match move.step
       case DeliverVerify(_, _, _, topupId) => topupId !in w.db.tables.outbox
       case DeliverTopupVerified(_, _, _, resultId) => resultId !in w.db.tables.outbox
       case DeliverTopupRejected(_, _, _, resultId) => resultId !in w.db.tables.outbox
       case ReadPending(_) => true
       case Reconcile(seen, passStart, freshId) =>
         seen in w.seen && seen.at <= passStart <= move.at && freshId !in w.db.tables.outbox
       case Publish(publisher) => PublisherEnabled(publisher, cfg.bound)
  }

  function ItemsRead(s: Authority, ops: set<Id>, now: Time): set<Seen> {
    set op | op in ops && NeedsRetry(s, op, now) :: Seen(RetryItem(s, op), now)
  }

  function Next(w: World, move: Move, cfg: Settings): World {
    World(NextDb(w.db, cfg.network, move.at, move.step), move.at,
          w.seen + if move.step.ReadPending? then ItemsRead(w.db, move.step.ops, move.at) else {})
  }

  function Run(w: World, moves: seq<Move>, cfg: Settings): World
    decreases |moves|
  {
    if moves == [] then w else Run(Next(w, moves[0], cfg), moves[1..], cfg)
  }

  ghost predicate EnabledRun(w: World, moves: seq<Move>, cfg: Settings)
    decreases |moves|
  {
    moves == [] || (Enabled(w, moves[0], cfg) && EnabledRun(Next(w, moves[0], cfg), moves[1..], cfg))
  }

  ghost predicate WorldOk(w: World, cfg: Settings) {
    && Inv(w.db) && OutboxOk(w.db.tables.outbox, w.now, cfg.bound)
    && (forall seen | seen in w.seen :: SeenOk(w.db, seen) && seen.at <= w.now)
  }

  // ---- one step ----

  lemma ReplayContinues(s: Authority, r: InboxResult, now: Time)
    requires r.Duplicate?
    ensures Continues(s, s.(tables := Replay(s.tables, r, now)))
  {}

  lemma RegisterContinues(s: Authority, id: Id, digest: Body, expiresAt: Time)
    ensures Continues(s, s.(tables := Register(s.tables, id, digest, expiresAt).0))
  {}

  lemma LateContinues(s: Authority, id: Id, digest: Body, expiresAt: Time, now: Time)
    requires id !in s.tables.inbox
    ensures Continues(s, s.(tables := Reject(Register(s.tables, id, digest, expiresAt).0, id, now)))
  {}

  lemma WrittenContinues(s: Authority, now: Time, id: Id, command: ActivationVerify, expiresAt: Time, topupId: Id,
                         topup: TopupVerify, topupExpiresAt: Time)
    requires id !in s.tables.inbox && command.operationId !in s.verifications
    requires var t := Register(s.tables, id, VerifyBody(command), expiresAt).0;
             Insert(t, topupId, TopupVerifyBody(topup), Command, now, topupExpiresAt).Commit?
    ensures var t := Register(s.tables, id, VerifyBody(command), expiresAt).0;
            var inserted := Insert(t, topupId, TopupVerifyBody(topup), Command, now, topupExpiresAt).state;
            Continues(s, Written(s, inserted, now, id, command, topupId))
  {}

  lemma AcceptContinues(s: Authority, now: Time, id: Id, command: ActivationVerify, expiresAt: Time, topupId: Id,
                        topup: TopupVerify, topupExpiresAt: Time)
    ensures Continues(s, AcceptVerification(s, now, id, command, expiresAt, topupId, topup, topupExpiresAt).After(s))
  {
    var s' := AcceptVerification(s, now, id, command, expiresAt, topupId, topup, topupExpiresAt).After(s);
    var r := Register(s.tables, id, VerifyBody(command), expiresAt).1;
    AcceptCases(s, now, id, command, expiresAt, topupId, topup, topupExpiresAt);
    ContinuesReflexive(s);
    if r.Duplicate? {
      ReplayContinues(s, r, now);
    } else if s' != s {
      WrittenContinues(s, now, id, command, expiresAt, topupId, topup, topupExpiresAt);
    }
  }

  lemma VerifyContinues(s: Authority, network: string, now: Time, id: Id, command: ActivationVerify, expiresAt: Time,
                        topupId: Id)
    ensures Continues(s, HandleVerify(s, network, now, id, command, expiresAt, topupId).After(s))
  {
    AcceptContinues(s, now, id, command, expiresAt, topupId, FactsOf(command).(asset := command.asset),
                    Min(now + 5 * MINUTE, expiresAt));
    ContinuesReflexive(s);
  }

  lemma FreshVerifiedContinues(s: Authority, now: Time, id: Id, verified: TopupVerified, expiresAt: Time, resultId: Id)
    requires id !in s.tables.inbox && Undecided(s, verified.operationId)
    ensures var m := s.(tables := Register(s.tables, id, TopupVerifiedBody(verified), expiresAt).0);
            Continues(s, DecideVerified(m, now, id, verified, resultId).After(s))
  {
    var m := s.(tables := Register(s.tables, id, TopupVerifiedBody(verified), expiresAt).0);
    var tx := DecideVerified(m, now, id, verified, resultId);
    ContinuesReflexive(s);
    if tx.Commit? {
      RegisterContinues(s, id, TopupVerifiedBody(verified), expiresAt);
      DecideVerifiedContinues(m, now, id, verified, resultId);
      ContinuesTransitive(s, m, tx.state);
    }
  }

  lemma FreshRejectedContinues(s: Authority, now: Time, id: Id, rejection: Rejection, expiresAt: Time, resultId: Id)
    requires id !in s.tables.inbox && Undecided(s, rejection.operationId)
    ensures var m := s.(tables := Register(s.tables, id, TopupRejectedBody(rejection), expiresAt).0);
            Continues(s, FinishRejected(m, now, rejection.operationId, rejection.code, rejection.retryable, resultId,
                                        id).After(s))
  {
    var m := s.(tables := Register(s.tables, id, TopupRejectedBody(rejection), expiresAt).0);
    var tx := FinishRejected(m, now, rejection.operationId, rejection.code, rejection.retryable, resultId, id);
    ContinuesReflexive(s);
    if tx.Commit? {
      RegisterContinues(s, id, TopupRejectedBody(rejection), expiresAt);
      FinishRejectedContinues(m, now, rejection.operationId, rejection.code, rejection.retryable, resultId, id);
      ContinuesTransitive(s, m, tx.state);
    }
  }

  lemma TopupVerifiedContinues(s: Authority, now: Time, id: Id, verified: TopupVerified, expiresAt: Time, resultId: Id)
    ensures Continues(s, ApplyTopupVerified(s, now, id, verified, expiresAt, resultId).After(s))
  {
    var r := Register(s.tables, id, TopupVerifiedBody(verified), expiresAt).1;
    ContinuesReflexive(s);
    if id in s.tables.inbox {
      if r.Duplicate? { ReplayContinues(s, r, now); }
    } else if Undecided(s, verified.operationId) {
      FreshVerifiedContinues(s, now, id, verified, expiresAt, resultId);
    } else {
      LateContinues(s, id, TopupVerifiedBody(verified), expiresAt, now);
    }
  }

  lemma TopupRejectedContinues(s: Authority, now: Time, id: Id, rejection: Rejection, expiresAt: Time, resultId: Id)
    ensures Continues(s, ApplyTopupRejected(s, now, id, rejection, expiresAt, resultId).After(s))
  {
    var r := Register(s.tables, id, TopupRejectedBody(rejection), expiresAt).1;
    ContinuesReflexive(s);
    if id in s.tables.inbox {
      if r.Duplicate? { ReplayContinues(s, r, now); }
    } else if Undecided(s, rejection.operationId) {
      FreshRejectedContinues(s, now, id, rejection, expiresAt, resultId);
    } else {
      LateContinues(s, id, TopupRejectedBody(rejection), expiresAt, now);
    }
  }

  lemma ReplaceContinues(s: Authority, now: Time, item: PendingRetry, newId: Id, expiresAt: Time)
    ensures Continues(s, ReplaceTopupCommand(s, now, item, newId, expiresAt).After(s))
  {}

  // Stale items are harmless: whatever the item says, a decided verification is left alone.
  lemma ReconcileContinues(s: Authority, now: Time, passStart: Time, item: PendingRetry, freshId: Id)
    ensures Continues(s, ReconcileItem(s, now, passStart, item, freshId).After(s))
  {
    ContinuesReflexive(s);
    if item.offerExpiresAt <= passStart {
      if Current(s, item) {
        var body := ActivationRejectedBody(Rejection(item.operationId, "EXPIRED", false));
        FinishContinues(s, now, item.operationId, item.commandId, Expired, body, Some("EXPIRED"), freshId, None);
      }
    } else {
      ReplaceContinues(s, now, item, freshId, Min(passStart + 5 * MINUTE, item.offerExpiresAt));
    }
  }

  lemma PublishContinues(s: Authority, publisher: PublisherStep, now: Time)
    ensures Continues(s, s.(tables := s.tables.(outbox := PublisherNext(s.tables.outbox, publisher, now))))
  {}

  lemma StepContinues(w: World, move: Move, cfg: Settings)
    requires Enabled(w, move, cfg)
    ensures Continues(w.db, Next(w, move, cfg).db)
  {
    match move.step {
      case DeliverVerify(id, command, expiresAt, topupId) =>
        VerifyContinues(w.db, cfg.network, move.at, id, command, expiresAt, topupId);
      case DeliverTopupVerified(id, verified, expiresAt, resultId) =>
        TopupVerifiedContinues(w.db, move.at, id, verified, expiresAt, resultId);
      case DeliverTopupRejected(id, rejection, expiresAt, resultId) =>
        ContinuesReflexive(w.db);
        TopupRejectedContinues(w.db, move.at, id, rejection, expiresAt, resultId);
      case ReadPending(_) => ContinuesReflexive(w.db);
      case Reconcile(seen, passStart, freshId) => ReconcileContinues(w.db, move.at, passStart, seen.item, freshId);
      case Publish(publisher) => PublishContinues(w.db, publisher, move.at);
    }
  }

  lemma StepKeepsInv(w: World, move: Move, cfg: Settings)
    requires WorldOk(w, cfg) && Enabled(w, move, cfg)
    ensures Inv(Next(w, move, cfg).db)
  {
    match move.step {
      case DeliverVerify(id, command, expiresAt, topupId) =>
        VerifyKeepsInv(w.db, cfg.network, move.at, id, command, expiresAt, topupId);
      case DeliverTopupVerified(id, verified, expiresAt, resultId) =>
        TopupVerifiedKeepsInv(w.db, move.at, id, verified, expiresAt, resultId);
      case DeliverTopupRejected(id, rejection, expiresAt, resultId) =>
        TopupRejectedKeepsInv(w.db, move.at, id, rejection, expiresAt, resultId);
      case ReadPending(_) =>
      case Reconcile(seen, passStart, freshId) => ReconcileKeepsInv(w.db, move.at, passStart, seen, freshId);
      case Publish(publisher) => PublishKeepsInv(w, publisher, move.at, cfg);
    }
  }

  lemma PublishKeepsInv(w: World, publisher: PublisherStep, now: Time, cfg: Settings)
    requires WorldOk(w, cfg) && w.now <= now && LEASE <= cfg.bound
    requires PublisherEnabled(publisher, cfg.bound)
    ensures Inv(w.db.(tables := w.db.tables.(outbox := PublisherNext(w.db.tables.outbox, publisher, now))))
  {
    TimePasses(w.db.tables.outbox, w.now, now, cfg.bound);
    PublisherKeepsRows(w.db.tables.outbox, publisher, now, cfg.bound);
    OutboxChangeKeepsInv(w.db, w.db.(tables := w.db.tables.(outbox := PublisherNext(w.db.tables.outbox, publisher,
                                                                                    now))));
  }

  // ---- due times ----

  ghost predicate TopupsExist(s: Authority) {
    forall op | op in s.verifications ::
      s.verifications[op].topupId in s.tables.outbox && s.tables.outbox[s.verifications[op].topupId].kind.Command?
  }

  lemma DecideVerifiedKeepsRows(m: Authority, now: Time, id: Id, verified: TopupVerified, resultId: Id, bound: Time)
    requires Undecided(m, verified.operationId) && TopupsExist(m) && OutboxOk(m.tables.outbox, now, bound) && 0 <= bound
    ensures RowsStep(m.tables.outbox, DecideVerified(m, now, id, verified, resultId).After(m).tables.outbox, now, bound)
  {
    var op, tx := verified.operationId, DecideVerified(m, now, id, verified, resultId);
    var command := m.verifications[op].command;
    if tx.Commit? {
      if !FactsAccepted(verified, command, now) {
        FinishRejectedKeepsRows(m, now, op, "CONTRACT_VIOLATION", false, resultId, id, bound);
      } else {
        var (m1, walletMatch) := EnsureIdentity(m, command);
        if !walletMatch {
          FinishRejectedKeepsRows(m1, now, op, "WALLET_MISMATCH", false, resultId, id, bound);
        } else {
          match ActivateSession(m1, now, command) {
            case Conflict => FinishRejectedKeepsRows(m1, now, op, "CONFLICT", false, resultId, id, bound);
            case Activation(m2, version) =>
              FinishKeepsRows(m2, now, op, m2.verifications[op].commandId, Verified,
                              ResultBody(command, Verified, version, "", false, now), None, resultId, Some(id), bound);
          }
        }
      }
    }
  }

  lemma FinishRejectedKeepsRows(s: Authority, now: Time, op: Id, code: string, retryable: bool, resultId: Id, id: Id,
                                bound: Time)
    requires op in s.verifications && TopupsExist(s) && OutboxOk(s.tables.outbox, now, bound) && 0 <= bound
    ensures RowsStep(s.tables.outbox, FinishRejected(s, now, op, code, retryable, resultId, id).After(s).tables.outbox,
                     now, bound)
  {
    FinishKeepsRows(s, now, op, s.verifications[op].commandId, Rejected,
                    ResultBody(s.verifications[op].command, Rejected, 0, code, retryable, now),
                    if code == "" then None else Some(code), resultId, Some(id), bound);
  }

  lemma ReplayKeepsRows(t: Tables, r: InboxResult, now: Time, bound: Time)
    requires r.Duplicate? && OutboxOk(t.outbox, now, bound) && 0 <= bound
    ensures RowsStep(t.outbox, Replay(t, r, now).outbox, now, bound)
  {}

  lemma VerifyKeepsRows(s: Authority, network: string, now: Time, id: Id, command: ActivationVerify, expiresAt: Time,
                        topupId: Id, bound: Time)
    requires OutboxOk(s.tables.outbox, now, bound) && 0 <= bound
    ensures RowsStep(s.tables.outbox, HandleVerify(s, network, now, id, command, expiresAt,
                                                   topupId).After(s).tables.outbox, now, bound)
  {
    AcceptKeepsRows(s, now, id, command, expiresAt, topupId, FactsOf(command).(asset := command.asset),
                    Min(now + 5 * MINUTE, expiresAt), bound);
  }

  lemma AcceptKeepsRows(s: Authority, now: Time, id: Id, command: ActivationVerify, expiresAt: Time, topupId: Id,
                        topup: TopupVerify, topupExpiresAt: Time, bound: Time)
    requires OutboxOk(s.tables.outbox, now, bound) && 0 <= bound
    ensures RowsStep(s.tables.outbox, AcceptVerification(s, now, id, command, expiresAt, topupId, topup,
                                                         topupExpiresAt).After(s).tables.outbox, now, bound)
  {
    var (t, r) := Register(s.tables, id, VerifyBody(command), expiresAt);
    AcceptCases(s, now, id, command, expiresAt, topupId, topup, topupExpiresAt);
    if r.Duplicate? {
      ReplayKeepsRows(s.tables, r, now, bound);
    } else if Insert(t, topupId, TopupVerifyBody(topup), Command, now, topupExpiresAt).Commit? {
      InsertKeepsRows(t, topupId, TopupVerifyBody(topup), Command, now, topupExpiresAt, bound);
    }
  }

  lemma TopupVerifiedKeepsRows(s: Authority, now: Time, id: Id, verified: TopupVerified, expiresAt: Time, resultId: Id,
                               bound: Time)
    requires TopupsExist(s) && OutboxOk(s.tables.outbox, now, bound) && 0 <= bound
    ensures RowsStep(s.tables.outbox, ApplyTopupVerified(s, now, id, verified, expiresAt,
                                                         resultId).After(s).tables.outbox, now, bound)
  {
    var (t, r) := Register(s.tables, id, TopupVerifiedBody(verified), expiresAt);
    if r.Duplicate? { ReplayKeepsRows(s.tables, r, now, bound); }
    else if r.Accepted? && Undecided(s, verified.operationId) {
      DecideVerifiedKeepsRows(s.(tables := t), now, id, verified, resultId, bound);
    }
  }

  lemma TopupRejectedKeepsRows(s: Authority, now: Time, id: Id, rejection: Rejection, expiresAt: Time, resultId: Id,
                               bound: Time)
    requires TopupsExist(s) && OutboxOk(s.tables.outbox, now, bound) && 0 <= bound
    ensures RowsStep(s.tables.outbox, ApplyTopupRejected(s, now, id, rejection, expiresAt,
                                                         resultId).After(s).tables.outbox, now, bound)
  {
    var (t, r) := Register(s.tables, id, TopupRejectedBody(rejection), expiresAt);
    if r.Duplicate? { ReplayKeepsRows(s.tables, r, now, bound); }
    else if r.Accepted? && Undecided(s, rejection.operationId) {
      FinishRejectedKeepsRows(s.(tables := t), now, rejection.operationId, rejection.code, rejection.retryable,
                              resultId, id, bound);
    }
  }

  lemma ReconcileKeepsRows(s: Authority, now: Time, passStart: Time, item: PendingRetry, freshId: Id, bound: Time)
    requires TopupsExist(s) && OutboxOk(s.tables.outbox, now, bound) && 0 <= bound
    ensures RowsStep(s.tables.outbox, ReconcileItem(s, now, passStart, item, freshId).After(s).tables.outbox, now,
                     bound)
  {
    if Current(s, item) {
      if item.offerExpiresAt <= passStart {
        var body := ActivationRejectedBody(Rejection(item.operationId, "EXPIRED", false));
        FinishKeepsRows(s, now, item.operationId, item.commandId, Expired, body, Some("EXPIRED"), freshId, None, bound);
      } else {
        var expiresAt := Min(passStart + 5 * MINUTE, item.offerExpiresAt);
        if TruncateToMicros(expiresAt) > now {
          InsertKeepsRows(s.tables, freshId, TopupVerifyBody(item.facts), Command, now, expiresAt, bound);
        }
      }
    }
  }

  lemma StepKeepsRows(w: World, move: Move, cfg: Settings)
    requires WorldOk(w, cfg) && Enabled(w, move, cfg)
    ensures var outbox, outbox' := w.db.tables.outbox, Next(w, move, cfg).db.tables.outbox;
            && OutboxOk(outbox', move.at, cfg.bound) && AddsPending(outbox, outbox', move.at)
            && (move.step.Publish? || ClaimsNothing(outbox, outbox'))
  {
    assert TopupsExist(w.db) by { assert forall op | op in w.db.verifications :: VerificationOk(w.db, op); }
    TimePasses(w.db.tables.outbox, w.now, move.at, cfg.bound);
    match move.step {
      case DeliverVerify(id, command, expiresAt, topupId) =>
        VerifyKeepsRows(w.db, cfg.network, move.at, id, command, expiresAt, topupId, cfg.bound);
      case DeliverTopupVerified(id, verified, expiresAt, resultId) =>
        TopupVerifiedKeepsRows(w.db, move.at, id, verified, expiresAt, resultId, cfg.bound);
      case DeliverTopupRejected(id, rejection, expiresAt, resultId) =>
        TopupRejectedKeepsRows(w.db, move.at, id, rejection, expiresAt, resultId, cfg.bound);
      case ReadPending(_) =>
      case Reconcile(seen, passStart, freshId) =>
        ReconcileKeepsRows(w.db, move.at, passStart, seen.item, freshId, cfg.bound);
      case Publish(publisher) => PublisherKeepsRows(w.db.tables.outbox, publisher, move.at, cfg.bound);
    }
  }

  // ---- items already read ----

  lemma SeenStaysOk(s: Authority, s': Authority, seen: Seen)
    requires SeenOk(s, seen) && Continues(s, s')
    ensures SeenOk(s', seen)
  {}

  lemma ReadItemIsOk(s: Authority, op: Id, now: Time)
    requires VerificationsOk(s) && NeedsRetry(s, op, now)
    ensures SeenOk(s, Seen(RetryItem(s, op), now))
  {}

  lemma StepKeepsSeen(w: World, move: Move, cfg: Settings)
    requires WorldOk(w, cfg) && Enabled(w, move, cfg)
    ensures forall seen | seen in Next(w, move, cfg).seen :: SeenOk(Next(w, move, cfg).db, seen) && seen.at <= move.at
  {
    StepContinues(w, move, cfg);
    forall seen | seen in Next(w, move, cfg).seen
      ensures SeenOk(Next(w, move, cfg).db, seen) && seen.at <= move.at
    {
      if seen in w.seen {
        SeenStaysOk(w.db, Next(w, move, cfg).db, seen);
      } else {
        ReadItemIsOk(w.db, seen.item.operationId, move.at);
      }
    }
  }

  // ---- all runs ----

  lemma StepKeepsWorld(w: World, move: Move, cfg: Settings)
    requires WorldOk(w, cfg) && Enabled(w, move, cfg)
    ensures WorldOk(Next(w, move, cfg), cfg) && Continues(w.db, Next(w, move, cfg).db)
  {
    StepKeepsInv(w, move, cfg);
    StepKeepsRows(w, move, cfg);
    StepKeepsSeen(w, move, cfg);
    StepContinues(w, move, cfg);
  }

  // Every reachable state satisfies the invariant, and the past is final.
  lemma {:induction false} RunKeepsWorld(w: World, moves: seq<Move>, cfg: Settings)
    requires WorldOk(w, cfg) && EnabledRun(w, moves, cfg)
    ensures WorldOk(Run(w, moves, cfg), cfg) && Continues(w.db, Run(w, moves, cfg).db)
    decreases |moves|
  {
    if moves == [] {
      ContinuesReflexive(w.db);
    } else {
      var w' := Next(w, moves[0], cfg);
      StepKeepsWorld(w, moves[0], cfg);
      RunKeepsWorld(w', moves[1..], cfg);
      ContinuesTransitive(w.db, w'.db, Run(w', moves[1..], cfg).db);
    }
  }
}
