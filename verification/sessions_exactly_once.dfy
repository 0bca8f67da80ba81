// Exactly-once effect: repeated deliveries change nothing but the publication of results.
module SessionsExactlyOnce {
  import opened Base
  import opened Contracts
  import opened Messages
  import opened MessagesAlike
  import opened Sessions
  import opened SessionsInvariant
  import opened SessionsRuns

  ghost predicate SameCore(a: Authority, b: Authority) {
    && a == b.(tables := a.tables) && a.tables.inbox == b.tables.inbox
    && SameCommands(a.tables.outbox, b.tables.outbox)
  }

  predicate IsDuplicate(s: Authority, step: Step) {
    match step
    case DeliverVerify(id, _, _, _) => id in s.tables.inbox
    case DeliverTopupVerified(id, _, _, _) => id in s.tables.inbox
    case DeliverTopupRejected(id, _, _, _) => id in s.tables.inbox
    case _ => false
  }

  function WithoutDuplicates(w: World, moves: seq<Move>, cfg: Settings): seq<Move>
    decreases |moves|
  {
    if moves == [] then []
    else
      var rest := WithoutDuplicates(Next(w, moves[0], cfg), moves[1..], cfg);
      if IsDuplicate(w.db, moves[0].step) then rest else [moves[0]] + rest
  }

  // ---- a duplicate only asks for a result to be published again ----

  lemma RequeueResultKeepsCore(s: Authority, r: InboxResult, now: Time)
    requires r.Duplicate?
    requires r.resultId.Some? ==> r.resultId.value in s.tables.outbox && s.tables.outbox[r.resultId.value].kind.Result?
    ensures SameCore(s.(tables := Replay(s.tables, r, now)), s)
  {}

  lemma DuplicateKeepsCore(w: World, move: Move, cfg: Settings)
    requires InboxOk(w.db) && IsDuplicate(w.db, move.step)
    ensures SameCore(Next(w, move, cfg).db, w.db)
  {
    var id := move.step.id;
    assert InboxRowOk(w.db, id);
    match move.step {
      case DeliverVerify(_, command, expiresAt, topupId) =>
        var r := Register(w.db.tables, id, VerifyBody(command), expiresAt).1;
        if r.Duplicate? { RequeueResultKeepsCore(w.db, r, move.at); }
      case DeliverTopupVerified(_, verified, expiresAt, _) =>
        var r := Register(w.db.tables, id, TopupVerifiedBody(verified), expiresAt).1;
        if r.Duplicate? { RequeueResultKeepsCore(w.db, r, move.at); }
      case DeliverTopupRejected(_, rejection, expiresAt, _) =>
        var r := Register(w.db.tables, id, TopupRejectedBody(rejection), expiresAt).1;
        if r.Duplicate? { RequeueResultKeepsCore(w.db, r, move.at); }
    }
  }

  // ---- every step acts alike on databases with the same core ----

  // Both roll back, or both commit to the same core.
  ghost predicate SameOutcome(x: Tx<Authority>, y: Tx<Authority>) {
    (x.Rollback? && y.Rollback?) || (x.Commit? && y.Commit? && SameCore(x.state, y.state))
  }

  lemma CompleteBothAlike(t: Tables, u: Tables, now: Time, commandId: Id, resultId: Id, incoming: Option<Id>)
    requires SameTables(t, u)
    ensures SameTablesOutcome(CompleteBoth(t, now, commandId, resultId, incoming),
                              CompleteBoth(u, now, commandId, resultId, incoming))
  {
    CompleteAlike(t, u, commandId, resultId, now);
    var x, y := Complete(t, commandId, resultId, now), Complete(u, commandId, resultId, now);
    if x.Commit? && incoming.Some? { CompleteAlike(x.state, y.state, incoming.value, resultId, now); }
  }

  lemma FinishTablesAlike(t: Tables, u: Tables, now: Time, commandId: Id, topupId: Id, body: Body, resultId: Id,
                          incoming: Option<Id>)
    requires SameTables(t, u)
    ensures SameTablesOutcome(FinishTables(t, now, commandId, topupId, body, resultId, incoming),
                              FinishTables(u, now, commandId, topupId, body, resultId, incoming))
  {
    InsertAlike(t, u, resultId, body, Result, now, now + 24 * HOUR);
    var x1, y1 := Insert(t, resultId, body, Result, now, now + 24 * HOUR),
                  Insert(u, resultId, body, Result, now, now + 24 * HOUR);
    if x1.Commit? {
      CompleteBothAlike(x1.state, y1.state, now, commandId, resultId, incoming);
      var x2 := CompleteBoth(x1.state, now, commandId, resultId, incoming);
      var y2 := CompleteBoth(y1.state, now, commandId, resultId, incoming);
      if x2.Commit? { ConfirmAlike(x2.state, y2.state, topupId, now); }
    }
  }

  lemma FinishAlike(a: Authority, b: Authority, now: Time, op: Id, commandId: Id, status: VerificationStatus,
                    body: Body, code: Option<string>, resultId: Id, incoming: Option<Id>)
    requires SameCore(a, b) && op in a.verifications
    ensures SameOutcome(Finish(a, now, op, commandId, status, body, code, resultId, incoming),
                        Finish(b, now, op, commandId, status, body, code, resultId, incoming))
  {
    FinishTablesAlike(a.tables, b.tables, now, commandId, a.verifications[op].topupId, body, resultId, incoming);
  }

  lemma FinishRejectedAlike(a: Authority, b: Authority, now: Time, op: Id, code: string, retryable: bool, resultId: Id,
                            id: Id)
    requires SameCore(a, b) && op in a.verifications
    ensures SameOutcome(FinishRejected(a, now, op, code, retryable, resultId, id),
                        FinishRejected(b, now, op, code, retryable, resultId, id))
  {
    FinishAlike(a, b, now, op, a.verifications[op].commandId, Rejected,
                ResultBody(a.verifications[op].command, Rejected, 0, code, retryable, now),
                if code == "" then None else Some(code), resultId, Some(id));
  }

  lemma ActivateAlike(a: Authority, b: Authority, now: Time, command: ActivationVerify)
    requires SameCore(a, b)
    ensures var x, y := ActivateSession(a, now, command), ActivateSession(b, now, command);
            && (x.Conflict? <==> y.Conflict?) && (x.DatabaseError? <==> y.DatabaseError?)
            && (x.Activation? ==>
                  && y.Activation? && x.version == y.version && SameCore(x.state, y.state)
                  && x.state.verifications == a.verifications)
  {}

  lemma DecideVerifiedAlike(a: Authority, b: Authority, now: Time, id: Id, verified: TopupVerified, resultId: Id)
    requires SameCore(a, b) && verified.operationId in a.verifications
    ensures SameOutcome(DecideVerified(a, now, id, verified, resultId), DecideVerified(b, now, id, verified, resultId))
  {
    var op := verified.operationId;
    var command := a.verifications[op].command;
    if !FactsAccepted(verified, command, now) {
      FinishRejectedAlike(a, b, now, op, "CONTRACT_VIOLATION", false, resultId, id);
    } else {
      var (a1, walletMatch) := EnsureIdentity(a, command);
      var (b1, _) := EnsureIdentity(b, command);
      if !walletMatch {
        FinishRejectedAlike(a1, b1, now, op, "WALLET_MISMATCH", false, resultId, id);
      } else {
        ActivateAlike(a1, b1, now, command);
        match ActivateSession(a1, now, command) {
          case DatabaseError =>
          case Conflict => FinishRejectedAlike(a1, b1, now, op, "CONFLICT", false, resultId, id);
          case Activation(a2, version) =>
            FinishAlike(a2, ActivateSession(b1, now, command).state, now, op, a.verifications[op].commandId, Verified,
                        ResultBody(command, Verified, version, "", false, now), None, resultId, Some(id));
        }
      }
    }
  }

  lemma AcceptAlike(a: Authority, b: Authority, now: Time, id: Id, command: ActivationVerify, expiresAt: Time,
                    topupId: Id, topup: TopupVerify, topupExpiresAt: Time)
    requires SameCore(a, b) && id !in a.tables.inbox
    ensures SameOutcome(AcceptVerification(a, now, id, command, expiresAt, topupId, topup, topupExpiresAt),
                        AcceptVerification(b, now, id, command, expiresAt, topupId, topup, topupExpiresAt))
  {
    var t, u := Register(a.tables, id, VerifyBody(command), expiresAt).0,
                Register(b.tables, id, VerifyBody(command), expiresAt).0;
    InsertAlike(t, u, topupId, TopupVerifyBody(topup), Command, now, topupExpiresAt);
  }

  lemma VerifyAlike(a: Authority, b: Authority, network: string, now: Time, id: Id, command: ActivationVerify,
                    expiresAt: Time, topupId: Id)
    requires SameCore(a, b) && id !in a.tables.inbox
    ensures SameOutcome(HandleVerify(a, network, now, id, command, expiresAt, topupId),
                        HandleVerify(b, network, now, id, command, expiresAt, topupId))
  {
    AcceptAlike(a, b, now, id, command, expiresAt, topupId, FactsOf(command).(asset := command.asset),
                Min(now + 5 * MINUTE, expiresAt));
  }

  lemma TopupVerifiedAlike(a: Authority, b: Authority, now: Time, id: Id, verified: TopupVerified, expiresAt: Time,
                           resultId: Id)
    requires SameCore(a, b) && id !in a.tables.inbox
    ensures SameOutcome(ApplyTopupVerified(a, now, id, verified, expiresAt, resultId),
                        ApplyTopupVerified(b, now, id, verified, expiresAt, resultId))
  {
    if Undecided(a, verified.operationId) {
      DecideVerifiedAlike(a.(tables := Register(a.tables, id, TopupVerifiedBody(verified), expiresAt).0),
                          b.(tables := Register(b.tables, id, TopupVerifiedBody(verified), expiresAt).0),
                          now, id, verified, resultId);
    }
  }

  lemma TopupRejectedAlike(a: Authority, b: Authority, now: Time, id: Id, rejection: Rejection, expiresAt: Time,
                           resultId: Id)
    requires SameCore(a, b) && id !in a.tables.inbox
    ensures SameOutcome(ApplyTopupRejected(a, now, id, rejection, expiresAt, resultId),
                        ApplyTopupRejected(b, now, id, rejection, expiresAt, resultId))
  {
    if Undecided(a, rejection.operationId) {
      FinishRejectedAlike(a.(tables := Register(a.tables, id, TopupRejectedBody(rejection), expiresAt).0),
                          b.(tables := Register(b.tables, id, TopupRejectedBody(rejection), expiresAt).0),
                          now, rejection.operationId, rejection.code, rejection.retryable, resultId, id);
    }
  }

  lemma ReplaceAlike(a: Authority, b: Authority, now: Time, item: PendingRetry, newId: Id, expiresAt: Time)
    requires SameCore(a, b)
    ensures SameOutcome(ReplaceTopupCommand(a, now, item, newId, expiresAt),
                        ReplaceTopupCommand(b, now, item, newId, expiresAt))
  {
    InsertAlike(a.tables, b.tables, newId, TopupVerifyBody(item.facts), Command, now, expiresAt);
  }

  lemma ReconcileAlike(a: Authority, b: Authority, now: Time, passStart: Time, item: PendingRetry, freshId: Id)
    requires SameCore(a, b)
    ensures SameOutcome(ReconcileItem(a, now, passStart, item, freshId),
                        ReconcileItem(b, now, passStart, item, freshId))
  {
    if item.offerExpiresAt <= passStart {
      if Current(a, item) {
        var body := ActivationRejectedBody(Rejection(item.operationId, "EXPIRED", false));
        FinishAlike(a, b, now, item.operationId, item.commandId, Expired, body, Some("EXPIRED"), freshId, None);
      }
    } else {
      ReplaceAlike(a, b, now, item, freshId, Min(passStart + 5 * MINUTE, item.offerExpiresAt));
    }
  }

  lemma StepAlike(a: Authority, b: Authority, network: string, now: Time, step: Step)
    requires SameCore(a, b) && !IsDuplicate(a, step)
    ensures SameCore(NextDb(a, network, now, step), NextDb(b, network, now, step))
  {
    match step {
      case DeliverVerify(id, command, expiresAt, topupId) =>
        VerifyAlike(a, b, network, now, id, command, expiresAt, topupId);
      case DeliverTopupVerified(id, verified, expiresAt, resultId) =>
        TopupVerifiedAlike(a, b, now, id, verified, expiresAt, resultId);
      case DeliverTopupRejected(id, rejection, expiresAt, resultId) =>
        TopupRejectedAlike(a, b, now, id, rejection, expiresAt, resultId);
      case ReadPending(_) =>
      case Reconcile(seen, passStart, freshId) => ReconcileAlike(a, b, now, passStart, seen.item, freshId);
      case Publish(publisher) => PublishAlike(a.tables, b.tables, publisher, now);
    }
  }

  // ---- runs ----

  ghost predicate SameWorld(v: World, w: World) {
    SameCore(v.db, w.db) && v.seen == w.seen && w.now <= v.now
  }

  lemma NeedAlike(a: Authority, b: Authority, op: Id, now: Time)
    requires SameCore(a, b) && (op in a.verifications ==> VerificationOk(a, op))
    ensures NeedsRetry(a, op, now) <==> NeedsRetry(b, op, now)
  {
    if op in a.verifications {
      var topupId := a.verifications[op].topupId;
      assert SameRow(a.tables.outbox[topupId], b.tables.outbox[topupId]);
    }
  }

  lemma ReadsAlike(a: Authority, b: Authority, ops: set<Id>, now: Time)
    requires SameCore(a, b) && VerificationsOk(a)
    ensures ItemsRead(a, ops, now) == ItemsRead(b, ops, now)
  {
    forall op: Id ensures NeedsRetry(a, op, now) <==> NeedsRetry(b, op, now) {
      assert op in a.verifications ==> VerificationOk(a, op);
      NeedAlike(a, b, op, now);
    }
    forall op | op in ops && NeedsRetry(a, op, now) ensures RetryItem(a, op) == RetryItem(b, op) {}
  }

  lemma MoveAlike(v: World, w: World, move: Move, cfg: Settings)
    requires SameWorld(v, w) && WorldOk(v, cfg) && !IsDuplicate(v.db, move.step) && Enabled(v, move, cfg)
    ensures Enabled(w, move, cfg) && SameWorld(Next(v, move, cfg), Next(w, move, cfg))
  {
    StepAlike(v.db, w.db, cfg.network, move.at, move.step);
    if move.step.ReadPending? { ReadsAlike(v.db, w.db, move.step.ops, move.at); }
  }

  lemma {:induction false} RunAlike(v: World, w: World, moves: seq<Move>, cfg: Settings)
    requires SameWorld(v, w) && WorldOk(v, cfg) && EnabledRun(v, moves, cfg)
    ensures EnabledRun(w, WithoutDuplicates(v, moves, cfg), cfg)
    ensures SameWorld(Run(v, moves, cfg), Run(w, WithoutDuplicates(v, moves, cfg), cfg))
    decreases |moves|
  {
    if moves != [] {
      var v' := Next(v, moves[0], cfg);
      StepKeepsWorld(v, moves[0], cfg);
      var rest := WithoutDuplicates(v', moves[1..], cfg);
      if IsDuplicate(v.db, moves[0].step) {
        DuplicateKeepsCore(v, moves[0], cfg);
        SameCoreTransitive(v'.db, v.db, w.db);
        RunAlike(v', w, moves[1..], cfg);
      } else {
        MoveAlike(v, w, moves[0], cfg);
        RunAlike(v', Next(w, moves[0], cfg), moves[1..], cfg);
        assert ([moves[0]] + rest)[1..] == rest;
      }
    }
  }

  lemma SameCoreTransitive(a: Authority, b: Authority, c: Authority)
    requires SameCore(a, b) && SameCore(b, c)
    ensures SameCore(a, c)
  {}

  // Dropping every delivery whose message id is already in the inbox gives another legal run that ends with the same
  // inbox, verifications, identities, sessions, events and command rows.
  lemma DuplicatesHaveNoEffect(moves: seq<Move>, cfg: Settings)
    requires EnabledRun(START, moves, cfg)
    ensures var reduced := WithoutDuplicates(START, moves, cfg);
            EnabledRun(START, reduced, cfg) && SameCore(Run(START, moves, cfg).db, Run(START, reduced, cfg).db)
  {
    RunAlike(START, START, moves, cfg);
  }
}
