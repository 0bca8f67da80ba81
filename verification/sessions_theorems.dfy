// What holds of the authority in every reachable state and over every run.
module SessionsTheorems {
  import opened Base
  import opened Contracts
  import opened Messages
  import opened Sessions
  import opened SessionsInvariant
  import opened SessionsCases
  import opened SessionsActivation
  import opened SessionsMachine
  import opened SessionsHistory
  import opened SessionsRuns
  import Counting
  import Domain

  // ---- first wallet ----

  predicate IsVerified(s: Authority, op: Id) {
    op in s.verifications && s.verifications[op].status.Verified?
  }

  // Once a balance is bound, no run changes its wallet or network, and every verification of the balance that is
  // verified, before or after, carried exactly them.
  lemma FirstWalletIsForever(w: World, moves: seq<Move>, cfg: Settings, key: Fingerprint)
    requires WorldOk(w, cfg) && EnabledRun(w, moves, cfg) && key in w.db.identities
    ensures var s' := Run(w, moves, cfg).db;
            && key in s'.identities && s'.identities[key] == w.db.identities[key]
            && forall op | IsVerified(s', op) && Fingerprint(s'.verifications[op].command.balanceId) == key ::
                 && s'.verifications[op].command.senderWallet == w.db.identities[key].wallet
                 && s'.verifications[op].command.network == w.db.identities[key].network
  {
    RunKeepsWorld(w, moves, cfg);
    var s' := Run(w, moves, cfg).db;
    forall op | IsVerified(s', op) ensures BoundTo(s', s'.verifications[op].command) {
      assert op in s'.events && EventOk(s', op);
    }
  }

  // The delivery that justifies a verification.
  predicate Confirms(move: Move, command: ActivationVerify) {
    && move.step.DeliverTopupVerified? && move.step.verified.operationId == command.operationId
    && FactsAccepted(move.step.verified, command, move.at)
  }

  // Verified stays what it was, except possibly for `op`.
  ghost predicate VerifiesAtMost(s: Authority, s': Authority, op: Option<Id>) {
    forall o: Id | IsVerified(s', o) :: IsVerified(s, o) || op == Some(o)
  }

  lemma DecideVerifiedOnlyOnFacts(m: Authority, now: Time, id: Id, verified: TopupVerified, resultId: Id)
    requires verified.operationId in m.verifications
    ensures VerifiesAtMost(m, DecideVerified(m, now, id, verified, resultId).After(m),
                           if FactsAccepted(verified, m.verifications[verified.operationId].command, now)
                           then Some(verified.operationId) else None)
  {}

  function Justification(s: Authority, now: Time, step: Step): Option<Id> {
    if step.DeliverTopupVerified? && step.verified.operationId in s.verifications
       && FactsAccepted(step.verified, s.verifications[step.verified.operationId].command, now)
    then Some(step.verified.operationId) else None
  }

  lemma TopupVerifiedOnlyOnFacts(s: Authority, now: Time, id: Id, verified: TopupVerified, expiresAt: Time,
                                 resultId: Id)
    ensures VerifiesAtMost(s, ApplyTopupVerified(s, now, id, verified, expiresAt, resultId).After(s),
                           Justification(s, now, DeliverTopupVerified(id, verified, expiresAt, resultId)))
  {
    if Undecided(s, verified.operationId) && id !in s.tables.inbox {
      DecideVerifiedOnlyOnFacts(s.(tables := Register(s.tables, id, TopupVerifiedBody(verified), expiresAt).0), now, id,
                                verified, resultId);
    }
  }

  lemma TopupRejectedVerifiesNothing(s: Authority, now: Time, id: Id, rejection: Rejection, expiresAt: Time,
                                     resultId: Id)
    ensures VerifiesAtMost(s, ApplyTopupRejected(s, now, id, rejection, expiresAt, resultId).After(s), None)
  {}

  lemma AcceptVerifiesNothing(s: Authority, now: Time, id: Id, command: ActivationVerify, expiresAt: Time, topupId: Id,
                              topup: TopupVerify, topupExpiresAt: Time)
    ensures VerifiesAtMost(s, AcceptVerification(s, now, id, command, expiresAt, topupId, topup,
                                                 topupExpiresAt).After(s), None)
  {}

  lemma ReconcileVerifiesNothing(s: Authority, now: Time, passStart: Time, item: PendingRetry, freshId: Id)
    ensures VerifiesAtMost(s, ReconcileItem(s, now, passStart, item, freshId).After(s), None)
  {}

  // Only a delivery that agrees on the facts of its operation can verify it.
  lemma StepVerifiesOnlyOnFacts(s: Authority, network: string, now: Time, step: Step)
    ensures VerifiesAtMost(s, NextDb(s, network, now, step), Justification(s, now, step))
  {
    match step {
      case DeliverVerify(id, command, expiresAt, topupId) =>
        AcceptVerifiesNothing(s, now, id, command, expiresAt, topupId, FactsOf(command).(asset := command.asset),
                              Min(now + 5 * MINUTE, expiresAt));
      case DeliverTopupVerified(id, verified, expiresAt, resultId) =>
        TopupVerifiedOnlyOnFacts(s, now, id, verified, expiresAt, resultId);
      case DeliverTopupRejected(id, rejection, expiresAt, resultId) =>
        TopupRejectedVerifiesNothing(s, now, id, rejection, expiresAt, resultId);
      case ReadPending(_) =>
      case Reconcile(seen, passStart, freshId) => ReconcileVerifiesNothing(s, now, passStart, seen.item, freshId);
      case Publish(publisher) =>
    }
  }

  lemma StepVerifiesWithWitness(w: World, move: Move, cfg: Settings, op: Id)
    requires VerificationsOk(w.db) && Enabled(w, move, cfg)
    requires IsVerified(Next(w, move, cfg).db, op) && !IsVerified(w.db, op)
    ensures Confirms(move, Next(w, move, cfg).db.verifications[op].command)
  {
    StepVerifiesOnlyOnFacts(w.db, cfg.network, move.at, move.step);
    StepContinues(w, move, cfg);
    assert VerificationOk(w.db, op);
    assert VerificationContinues(w.db.verifications[op], Next(w, move, cfg).db.verifications[op]);
  }

  // Every verified operation of a run was confirmed by a delivery that agrees on all six facts and was finalized no
  // later than its offer expired.
  lemma {:induction false} VerifiedHasWitness(w: World, moves: seq<Move>, cfg: Settings, op: Id) returns (i: nat)
    requires WorldOk(w, cfg) && EnabledRun(w, moves, cfg)
    requires IsVerified(Run(w, moves, cfg).db, op) && !IsVerified(w.db, op)
    ensures i < |moves| && Confirms(moves[i], Run(w, moves, cfg).db.verifications[op].command)
    decreases |moves|
  {
    var w' := Next(w, moves[0], cfg);
    StepKeepsWorld(w, moves[0], cfg);
    if IsVerified(w'.db, op) {
      StepVerifiesWithWitness(w, moves[0], cfg, op);
      RunKeepsWorld(w', moves[1..], cfg);
      assert VerificationContinues(w'.db.verifications[op], Run(w', moves[1..], cfg).db.verifications[op]);
      i := 0;
    } else {
      var j := VerifiedHasWitness(w', moves[1..], cfg, op);
      i := j + 1;
    }
  }

  // ---- one decision per operation ----

  ghost function UndecidedCommands(s: Authority): map<Id, Id> {
    map op | op in s.verifications && s.verifications[op].status.VerificationPending? :: s.verifications[op].commandId
  }

  ghost function ProcessingRows(s: Authority): set<Id> {
    set id | id in s.tables.inbox && s.tables.inbox[id].status.Processing?
  }

  // Undecided verifications and PROCESSING inbox rows are in one-to-one correspondence.
  lemma UndecidedMatchProcessing(s: Authority)
    requires Inv(s)
    ensures UndecidedCommands(s).Values == ProcessingRows(s)
    ensures |UndecidedCommands(s).Keys| == |ProcessingRows(s)|
  {
    var m := UndecidedCommands(s);
    forall op | op in m ensures m[op] in ProcessingRows(s)
                                && s.tables.inbox[m[op]].digest == VerifyBody(s.verifications[op].command) {
      assert VerificationOk(s, op);
    }
    forall op | op in m ensures s.verifications[op].command.operationId == op { assert VerificationOk(s, op); }
    forall id | id in ProcessingRows(s) ensures id in m.Values {
      assert InboxRowOk(s, id);
      assert m[s.tables.inbox[id].digest.verify.operationId] == id;
    }
    assert m.Values == ProcessingRows(s);
    Counting.InjectiveMapSize(m);
  }

  // A decided operation has exactly one RESULT row, its command's inbox row points to it, and it says what was decided.
  lemma ExactlyOneResult(s: Authority, op: Id)
    requires Inv(s) && op in s.verifications && !Undecided(s, op)
    ensures var result := s.tables.inbox[s.verifications[op].commandId].resultId;
            && result.Some? && result.value in s.tables.outbox && Announces(s, op, s.tables.outbox[result.value].body)
            && (forall id | id in s.tables.outbox && s.tables.outbox[id].kind.Result? ::
                  ResultOperation(s.tables.outbox[id].body) == op <==> id == result.value)
  {}

  lemma OneAnnouncement(s: Authority, a: Id, b: Id)
    requires a in s.tables.outbox && OutboxRowOk(s, a) && s.tables.outbox[a].body.ActivatedBody?
    requires b in s.tables.outbox && OutboxRowOk(s, b) && s.tables.outbox[b].body.ActivationRejectedBody?
    ensures s.tables.outbox[a].body.activated.operationId != s.tables.outbox[b].body.activationRejected.operationId
  {}

  // "activated" and "rejected" are never both announced for one operation, not even at different times of a run.
  lemma NeverBothAnnounced(w: World, moves: seq<Move>, cfg: Settings, a: Id, b: Id)
    requires WorldOk(w, cfg) && EnabledRun(w, moves, cfg)
    requires a in w.db.tables.outbox && w.db.tables.outbox[a].body.ActivatedBody?
    requires var o := Run(w, moves, cfg).db.tables.outbox; b in o && o[b].body.ActivationRejectedBody?
    ensures w.db.tables.outbox[a].body.activated.operationId
         != Run(w, moves, cfg).db.tables.outbox[b].body.activationRejected.operationId
  {
    RunKeepsWorld(w, moves, cfg);
    var s, s' := w.db, Run(w, moves, cfg).db;
    assert RowEvolves(s.tables.outbox[a], s'.tables.outbox[a]) && OutboxRowOk(s', a) && OutboxRowOk(s', b);
    OneAnnouncement(s', a, b);
  }

  // The abstract machine: a ledger in which every operation is decided at most once.
  ghost function Ledger(s: Authority): map<Id, VerificationStatus> {
    map op | op in s.verifications && !s.verifications[op].status.VerificationPending? :: s.verifications[op].status
  }

  // Every step of the authority is a step of the ledger: only the touched operation can be decided, and only once.
  ghost predicate LedgerStep(before: map<Id, VerificationStatus>, after: map<Id, VerificationStatus>,
                             touched: Option<Id>)
  {
    || after == before
    || (touched.Some? && touched.value !in before && touched.value in after
        && after == before[touched.value := after[touched.value]])
  }

  // The only verification a step can touch.
  function Touches(step: Step): Option<Id> {
    match step
    case DeliverVerify(_, command, _, _) => Some(command.operationId)
    case DeliverTopupVerified(_, verified, _, _) => Some(verified.operationId)
    case DeliverTopupRejected(_, rejection, _, _) => Some(rejection.operationId)
    case Reconcile(seen, _, _) => Some(seen.item.operationId)
    case _ => None
  }

  ghost predicate OthersUntouched(s: Authority, s': Authority, op: Id) {
    forall o | o != op :: (o in s'.verifications <==> o in s.verifications)
                          && (o in s.verifications ==> s'.verifications[o] == s.verifications[o])
  }

  lemma DecideVerifiedLeavesOthers(m: Authority, now: Time, id: Id, verified: TopupVerified, resultId: Id)
    requires verified.operationId in m.verifications
    ensures OthersUntouched(m, DecideVerified(m, now, id, verified, resultId).After(m), verified.operationId)
  {}

  lemma TopupLeavesOthers(s: Authority, now: Time, id: Id, verified: TopupVerified, expiresAt: Time, resultId: Id)
    ensures OthersUntouched(s, ApplyTopupVerified(s, now, id, verified, expiresAt, resultId).After(s),
                            verified.operationId)
  {
    if Undecided(s, verified.operationId) && id !in s.tables.inbox {
      DecideVerifiedLeavesOthers(s.(tables := Register(s.tables, id, TopupVerifiedBody(verified), expiresAt).0), now,
                                 id, verified, resultId);
    }
  }

  lemma AcceptLeavesOthers(s: Authority, now: Time, id: Id, command: ActivationVerify, expiresAt: Time, topupId: Id,
                           topup: TopupVerify, topupExpiresAt: Time)
    ensures OthersUntouched(s, AcceptVerification(s, now, id, command, expiresAt, topupId, topup,
                                                  topupExpiresAt).After(s), command.operationId)
  {}

  lemma RejectionLeavesOthers(s: Authority, now: Time, id: Id, rejection: Rejection, expiresAt: Time, resultId: Id)
    ensures OthersUntouched(s, ApplyTopupRejected(s, now, id, rejection, expiresAt, resultId).After(s),
                            rejection.operationId)
  {
    TopupRejectedCases(s, now, id, rejection, expiresAt, resultId);
  }

  lemma ReconcileLeavesOthers(s: Authority, now: Time, passStart: Time, item: PendingRetry, freshId: Id)
    ensures OthersUntouched(s, ReconcileItem(s, now, passStart, item, freshId).After(s), item.operationId)
  {}

  lemma StepLeavesOthers(s: Authority, network: string, now: Time, step: Step)
    ensures Touches(step).Some? ==> OthersUntouched(s, NextDb(s, network, now, step), Touches(step).value)
    ensures Touches(step).None? ==> NextDb(s, network, now, step).verifications == s.verifications
  {
    match step {
      case DeliverVerify(id, command, expiresAt, topupId) =>
        AcceptLeavesOthers(s, now, id, command, expiresAt, topupId, FactsOf(command).(asset := command.asset),
                           Min(now + 5 * MINUTE, expiresAt));
      case DeliverTopupVerified(id, verified, expiresAt, resultId) =>
        TopupLeavesOthers(s, now, id, verified, expiresAt, resultId);
      case DeliverTopupRejected(id, rejection, expiresAt, resultId) =>
        RejectionLeavesOthers(s, now, id, rejection, expiresAt, resultId);
      case Reconcile(seen, passStart, freshId) => ReconcileLeavesOthers(s, now, passStart, seen.item, freshId);
      case ReadPending(_) =>
      case Publish(_) =>
    }
  }

  lemma StepRefinesLedger(w: World, move: Move, cfg: Settings)
    requires Enabled(w, move, cfg)
    ensures LedgerStep(Ledger(w.db), Ledger(Next(w, move, cfg).db), Touches(move.step))
  {
    StepContinues(w, move, cfg);
    StepLeavesOthers(w.db, cfg.network, move.at, move.step);
    if Touches(move.step).Some? { TouchedOnce(w.db, Next(w, move, cfg).db, Touches(move.step).value); }
  }

  lemma TouchedOnce(s: Authority, s': Authority, op: Id)
    requires Continues(s, s') && OthersUntouched(s, s', op)
    ensures LedgerStep(Ledger(s), Ledger(s'), Some(op))
  {}

  // ---- repeated messages ----

  // The stored result of a decided operation.
  function ResultOf(s: Authority, op: Id): Option<Id>
    requires op in s.verifications && s.verifications[op].commandId in s.tables.inbox
  {
    s.tables.inbox[s.verifications[op].commandId].resultId
  }

  // The result can be handed to a publisher at once after the transaction.
  predicate Republished(tx: Tx<Authority>, id: Id, now: Time) {
    tx.Commit? && id in tx.state.tables.outbox && Claimable(tx.state.tables.outbox[id], now)
  }

  lemma RequeuedIsRepublished(s: Authority, id: Id, now: Time, later: Time, bound: Time)
    requires OutboxOk(s.tables.outbox, now, bound) && now <= later
    requires id in s.tables.outbox && s.tables.outbox[id].kind.Result?
    ensures Republished(Commit(s.(tables := Requeue(s.tables, id, later))), id, later)
       <==> later < s.tables.outbox[id].expiresAt
  {
    TimePasses(s.tables.outbox, now, later, bound);
    RequeuedIsClaimable(s.tables, id, later, bound);
  }

  lemma KnownVerify(s: Authority, network: string, at: Time, op: Id, expiresAt: Time, topupId: Id)
    requires op in s.verifications && VerificationOk(s, op) && !Undecided(s, op)
    ensures var v := s.verifications[op];
            HandleVerify(s, network, at, v.commandId, v.command, expiresAt, topupId)
            == if !Domain.ValidateActivation(v.command, network, at) || expiresAt <= at then Rollback
            else Commit(s.(tables := Requeue(s.tables, ResultOf(s, op).value, at)))
  {}

  // A repeated command of a decided operation has its result published again exactly when it would still be valid as a
  // new one: the service validates it before it looks at the inbox. The result itself lives for a day.
  lemma RepeatedVerifyIsAnsweredExactlyIf(w: World, cfg: Settings, op: Id, at: Time, expiresAt: Time, topupId: Id)
    requires WorldOk(w, cfg) && w.now <= at && op in w.db.verifications && !Undecided(w.db, op)
    ensures var v := w.db.verifications[op];
            && v.commandId in w.db.tables.inbox && ResultOf(w.db, op).Some? && v.completedAt.Some?
            && var tx := HandleVerify(w.db, cfg.network, at, v.commandId, v.command, expiresAt, topupId);
            (Republished(tx, ResultOf(w.db, op).value, at) <==>
             Domain.ValidateActivation(v.command, cfg.network, at) && at < expiresAt
             && at < TruncateToMicros(v.completedAt.value + 24 * HOUR))
  {
    assert VerificationOk(w.db, op);
    KnownVerify(w.db, cfg.network, at, op, expiresAt, topupId);
    RequeuedIsRepublished(w.db, ResultOf(w.db, op).value, w.now, at, cfg.bound);
  }

  // What a repeated message comes to if nothing refuses it before the inbox is consulted.
  function Repeated(s: Authority, id: Id, now: Time): Tx<Authority>
    requires id in s.tables.inbox
  {
    match s.tables.inbox[id].resultId
    case None => Commit(s)
    case Some(r) => Commit(s.(tables := Requeue(s.tables, r, now)))
  }

  // The step delivers a message of the top-up service again.
  predicate RepeatsTopup(s: Authority, id: Id, step: Step) {
    && id in s.tables.inbox
    && match step
       case DeliverTopupVerified(i, verified, _, _) =>
         i == id && s.tables.inbox[id].digest == TopupVerifiedBody(verified)
       case DeliverTopupRejected(i, rejection, _, _) =>
         i == id && s.tables.inbox[id].digest == TopupRejectedBody(rejection) && rejection.code != ""
       case _ => false
  }

  lemma KnownTopup(s: Authority, network: string, id: Id, step: Step, at: Time)
    requires RepeatsTopup(s, id, step) && InboxRowOk(s, id)
    ensures StepTx(s, network, at, step) == Repeated(s, id, at)
  {}

  // A repeated message of the top-up service has the result it led to published again as long as that lives; one
  // that led to none changes nothing.
  lemma RepeatedTopupIsAnsweredExactlyIf(w: World, cfg: Settings, id: Id, step: Step, at: Time)
    requires WorldOk(w, cfg) && w.now <= at && RepeatsTopup(w.db, id, step)
    ensures var tx := StepTx(w.db, cfg.network, at, step);
            match w.db.tables.inbox[id].resultId
            case None => tx == Commit(w.db)
            case Some(r) =>
              r in w.db.tables.outbox && (Republished(tx, r, at) <==> at < w.db.tables.outbox[r].expiresAt)
  {
    assert InboxRowOk(w.db, id);
    KnownTopup(w.db, cfg.network, id, step, at);
    var result := w.db.tables.inbox[id].resultId;
    if result.Some? { RequeuedIsRepublished(w.db, result.value, w.now, at, cfg.bound); }
  }

  // ---- the verdict ----

  predicate BoundElsewhere(s: Authority, command: ActivationVerify) {
    var key := Fingerprint(command.balanceId);
    key in s.identities && !(s.identities[key].network == command.network
                             && s.identities[key].wallet == command.senderWallet)
  }

  predicate Occupied(s: Authority, command: ActivationVerify) {
    || SessionConflict(s, command)
    || (command.sessionId in s.sessions && s.sessions[command.sessionId].identity != Fingerprint(command.balanceId))
  }

  // Why a confirmation is refused, if it is: the reasons in the order of their precedence.
  function Refusal(s: Authority, command: ActivationVerify, verified: TopupVerified, now: Time): Option<string> {
    if !FactsAccepted(verified, command, now) then Some("CONTRACT_VIOLATION")
    else if BoundElsewhere(s, command) then Some("WALLET_MISMATCH")
    else if Occupied(s, command) then Some("CONFLICT")
    else None
  }

  predicate Decided(s: Authority, op: Id, refusal: Option<string>) {
    && op in s.verifications
    && s.verifications[op].status == (if refusal.None? then Verified else Rejected)
    && s.verifications[op].failureCode == refusal
  }

  lemma FinishRejectedDecides(s: Authority, now: Time, op: Id, code: string, retryable: bool, resultId: Id, id: Id)
    requires op in s.verifications && code != ""
    ensures FinishRejected(s, now, op, code, retryable, resultId, id).Commit? ==>
              Decided(FinishRejected(s, now, op, code, retryable, resultId, id).state, op, Some(code))
  {}

  lemma DecideVerifiedDecides(s: Authority, now: Time, id: Id, verified: TopupVerified, resultId: Id)
    requires verified.operationId in s.verifications && IdentitiesOk(s) && SessionsOk(s)
    ensures DecideVerified(s, now, id, verified, resultId).Commit? ==>
              Decided(DecideVerified(s, now, id, verified, resultId).state, verified.operationId,
                      Refusal(s, s.verifications[verified.operationId].command, verified, now))
  {
    var op, command := verified.operationId, s.verifications[verified.operationId].command;
    EnsureIdentityBinds(s, command);
    if !FactsAccepted(verified, command, now) {
      FinishRejectedDecides(s, now, op, "CONTRACT_VIOLATION", false, resultId, id);
    } else {
      var (s1, walletMatch) := EnsureIdentity(s, command);
      assert walletMatch <==> !BoundElsewhere(s, command);
      if !walletMatch {
        FinishRejectedDecides(s1, now, op, "WALLET_MISMATCH", false, resultId, id);
      } else {
        FinishRejectedDecides(s1, now, op, "CONFLICT", false, resultId, id);
      }
    }
  }

  lemma FreshConfirmation(s: Authority, now: Time, id: Id, verified: TopupVerified, expiresAt: Time, resultId: Id)
    requires Undecided(s, verified.operationId) && id !in s.tables.inbox
    ensures ApplyTopupVerified(s, now, id, verified, expiresAt, resultId)
         == DecideVerified(s.(tables := Register(s.tables, id, TopupVerifiedBody(verified), expiresAt).0), now, id,
                           verified, resultId)
  {}

  // A new confirmation of an undecided operation is always decided, exactly as the facts, the stored wallet and
  // the other sessions demand.
  lemma VerdictIsExact(s: Authority, now: Time, id: Id, verified: TopupVerified, expiresAt: Time, resultId: Id)
    requires Inv(s) && Undecided(s, verified.operationId) && id !in s.tables.inbox && resultId !in s.tables.outbox
    ensures var tx := ApplyTopupVerified(s, now, id, verified, expiresAt, resultId);
            && tx.Commit?
            && Decided(tx.state, verified.operationId,
                       Refusal(s, s.verifications[verified.operationId].command, verified, now))
  {
    var m := s.(tables := Register(s.tables, id, TopupVerifiedBody(verified), expiresAt).0);
    FreshConfirmation(s, now, id, verified, expiresAt, resultId);
    FreshVerifiedKeepsInv(s, now, id, verified, expiresAt, resultId);
    DecideVerifiedDecides(m, now, id, verified, resultId);
    SameRefusal(s, m, verified, now);
  }

  lemma SameRefusal(s: Authority, m: Authority, verified: TopupVerified, now: Time)
    requires m == s.(tables := m.tables) && verified.operationId in s.verifications
    ensures Refusal(m, m.verifications[verified.operationId].command, verified, now)
         == Refusal(s, s.verifications[verified.operationId].command, verified, now)
  {}

  // ---- the asset ----

  // The verdict with the asset compared as well.
  function StrictRefusal(s: Authority, command: ActivationVerify, verified: TopupVerified, now: Time): Option<string> {
    if verified.asset != FactsOf(command).asset then Some("CONTRACT_VIOLATION") else Refusal(s, command, verified, now)
  }

  // Every asset gets the same verdict.
  lemma AssetIsNotCompared(s: Authority, now: Time, id: Id, verified: TopupVerified, asset: string, expiresAt: Time,
                           resultId: Id)
    requires Inv(s) && Undecided(s, verified.operationId) && id !in s.tables.inbox && resultId !in s.tables.outbox
    ensures var tx := ApplyTopupVerified(s, now, id, verified.(asset := asset), expiresAt, resultId);
            && tx.Commit?
            && Decided(tx.state, verified.operationId,
                       Refusal(s, s.verifications[verified.operationId].command, verified, now))
  {
    VerdictIsExact(s, now, id, verified.(asset := asset), expiresAt, resultId);
  }

  // So an operation is verified as it should be exactly when the asset is USDT or the confirmation is refused anyway.
  lemma AssetMattersExactlyIf(s: Authority, now: Time, id: Id, verified: TopupVerified, expiresAt: Time, resultId: Id)
    requires Inv(s) && Undecided(s, verified.operationId) && id !in s.tables.inbox && resultId !in s.tables.outbox
    ensures var op, command := verified.operationId, s.verifications[verified.operationId].command;
            var s' := ApplyTopupVerified(s, now, id, verified, expiresAt, resultId).After(s);
            (IsVerified(s', op) <==> StrictRefusal(s, command, verified, now).None?)
            <==> (verified.asset == "USDT" || Refusal(s, command, verified, now).Some?)
  {
    VerdictIsExact(s, now, id, verified, expiresAt, resultId);
  }

  // ---- a wallet bound without a verified operation ----

  lemma IdentitiesAfter(m: Authority, now: Time, id: Id, verified: TopupVerified, resultId: Id)
    requires verified.operationId in m.verifications && DecideVerified(m, now, id, verified, resultId).Commit?
    ensures var command := m.verifications[verified.operationId].command;
            DecideVerified(m, now, id, verified, resultId).state.identities
            == if FactsAccepted(verified, command, now) then EnsureIdentity(m, command).0.identities else m.identities
  {}

  // A confirmation binds a new wallet without verifying its operation exactly when the balance was unbound, the facts
  // are accepted and another session stands in the way.
  lemma WalletIsBoundUnverifiedExactlyIf(s: Authority, now: Time, id: Id, verified: TopupVerified, expiresAt: Time,
                                         resultId: Id)
    requires Inv(s) && Undecided(s, verified.operationId) && id !in s.tables.inbox && resultId !in s.tables.outbox
    ensures var op, command := verified.operationId, s.verifications[verified.operationId].command;
            var s', key := ApplyTopupVerified(s, now, id, verified, expiresAt, resultId).After(s),
                           Fingerprint(command.balanceId);
            (key !in s.identities && key in s'.identities && !IsVerified(s', op))
            <==> (key !in s.identities && FactsAccepted(verified, command, now) && Occupied(s, command))
  {
    var m := s.(tables := Register(s.tables, id, TopupVerifiedBody(verified), expiresAt).0);
    VerdictIsExact(s, now, id, verified, expiresAt, resultId);
    FreshConfirmation(s, now, id, verified, expiresAt, resultId);
    IdentitiesAfter(m, now, id, verified, resultId);
  }

  // ---- versions ----

  ghost function EventVersions(s: Authority, id: Id): map<Id, nat> {
    map op | op in EventsOf(s, id) && op in s.events :: s.events[op].version
  }

  ghost function VerifiedFor(s: Authority, id: Id): set<Id> {
    set op | op in s.verifications && s.verifications[op].status.Verified?
             && s.verifications[op].command.sessionId == id
  }

  lemma VerifiedAreEvents(s: Authority, id: Id)
    requires EventsOk(s)
    ensures VerifiedFor(s, id) == EventsOf(s, id)
  {}

  lemma VersionsInRange(s: Authority, id: Id)
    requires EventsOk(s) && VersionsOk(s) && id in s.sessions
    ensures EventVersions(s, id).Keys == EventsOf(s, id)
    ensures forall op | op in EventVersions(s, id) :: 1 <= EventVersions(s, id)[op] <= s.sessions[id].version
  {}

  // A session's version counts its events and its verified verifications, and its events carry 1..n
  // without gap or repeat.
  lemma VersionCountsEvents(s: Authority, id: Id)
    requires EventsOk(s) && VersionsOk(s) && id in s.sessions
    ensures |EventsOf(s, id)| == s.sessions[id].version == |VerifiedFor(s, id)|
    ensures EventVersions(s, id).Keys == EventsOf(s, id)
    ensures EventVersions(s, id).Values == Counting.UpTo(s.sessions[id].version)
    ensures forall a, b | a in EventVersions(s, id) && b in EventVersions(s, id)
                          && EventVersions(s, id)[a] == EventVersions(s, id)[b] :: a == b
  {
    VerifiedAreEvents(s, id);
    VersionsInRange(s, id);
    Counting.PigeonHole(EventVersions(s, id));
  }

  // Every session has a first event.
  lemma FirstEvent(s: Authority, id: Id) returns (op: Id)
    requires EventsOk(s) && VersionsOk(s) && SessionsOk(s) && id in s.sessions
    ensures op in s.events && s.events[op].sessionId == id && s.events[op].version == 1
  {
    VersionCountsEvents(s, id);
    assert 1 in EventVersions(s, id).Values;
    op :| op in EventVersions(s, id) && EventVersions(s, id)[op] == 1;
  }

  // And one that made its present version.
  lemma LatestEvent(s: Authority, id: Id) returns (op: Id)
    requires EventsOk(s) && VersionsOk(s) && SessionsOk(s) && id in s.sessions
    ensures op in s.events && s.events[op].sessionId == id && s.events[op].version == s.sessions[id].version
  {
    VersionCountsEvents(s, id);
    assert s.sessions[id].version in EventVersions(s, id).Values;
    op :| op in EventVersions(s, id) && EventVersions(s, id)[op] == s.sessions[id].version;
  }

  // A session belongs to the user of its first activation, and its transaction, chat and time are those
  // of its latest one.
  lemma SessionTellsItsEvents(s: Authority, op: Id)
    requires EventsOk(s) && op in s.events
    ensures op in s.verifications && s.events[op].sessionId in s.sessions
    ensures Records(s.events[op], s.sessions[s.events[op].sessionId], s.verifications[op].command)
  {
    assert EventOk(s, op);
  }

  // ---- uniqueness, commands, publication ----

  // No two active sessions share a Telegram user and no two sessions share a transaction.
  lemma SessionsAreUnique(s: Authority, a: Id, b: Id)
    requires Inv(s) && a in s.sessions && b in s.sessions && a != b
    ensures !(s.sessions[a].botId == s.sessions[b].botId && s.sessions[a].userId == s.sessions[b].userId)
    ensures !(s.sessions[a].network == s.sessions[b].network
              && s.sessions[a].transactionId == s.sessions[b].transactionId)
  {
    assert UniqueAgainst(s.sessions, a, s.sessions[a]);
  }

  // No top-up command, current or replaced, can be claimed once its operation is decided.
  lemma NoCommandOutlivesItsVerification(w: World, cfg: Settings, id: Id)
    requires WorldOk(w, cfg) && id in w.db.tables.outbox && w.db.tables.outbox[id].kind.Command?
    ensures var row := w.db.tables.outbox[id];
            row.body.TopupVerifyBody? && row.body.topupVerify.operationId in w.db.verifications
            && (!Undecided(w.db, row.body.topupVerify.operationId) ==> forall t :: !Claimable(row, t))
  {
    assert OutboxRowOk(w.db, id);
  }

  lemma NoCommandIsStranded(w: World, moves: seq<Move>, cfg: Settings, id: Id)
    requires WorldOk(w, cfg) && EnabledRun(w, moves, cfg) && id in w.db.tables.outbox
    ensures var w' := Run(w, moves, cfg);
            id in w'.db.tables.outbox && RowLater(w.db.tables.outbox[id], w'.db.tables.outbox[id], w'.now, cfg.bound)
  {
    RunKeepsWorld(w, moves, cfg);
    var w' := Run(w, moves, cfg);
    RowLaterFrom(w.db.tables.outbox[id], w'.db.tables.outbox[id], w'.now, cfg.bound);
  }

  // Later in a run the decision stands, the command's inbox row still points to its result, and EXPIRED was only
  // decided after the offer had expired.
  predicate DecisionStands(s: Authority, s': Authority, op: Id)
    requires op in s.verifications
  {
    && op in s'.verifications && s'.verifications[op] == s.verifications[op]
    && (s.verifications[op].status.Expired? ==>
          s.verifications[op].completedAt.Some?
          && StoredExpiry(s.verifications[op].command) <= s.verifications[op].completedAt.value)
    && var c := s.verifications[op].commandId;
    && c in s.tables.inbox && c in s'.tables.inbox && s'.tables.inbox[c] == s.tables.inbox[c]
  }

  lemma DecisionStandsFrom(s: Authority, s': Authority, op: Id)
    requires op in s.verifications && VerificationOk(s, op) && !Undecided(s, op) && Continues(s, s')
    ensures DecisionStands(s, s', op)
  {}

  // Reconciliation on stale reads is safe: whatever steps follow, a decided verification is never changed.
  lemma DecidedIsFinal(w: World, moves: seq<Move>, cfg: Settings, op: Id)
    requires WorldOk(w, cfg) && EnabledRun(w, moves, cfg)
    requires op in w.db.verifications && !Undecided(w.db, op)
    ensures DecisionStands(w.db, Run(w, moves, cfg).db, op)
  {
    RunKeepsWorld(w, moves, cfg);
    DecisionStandsFrom(w.db, Run(w, moves, cfg).db, op);
  }
}
