// The authority as a machine: all its steps, in any order, with any deliveries.
module SessionsMachine {
  import opened Base
  import opened Contracts
  import opened Messages
  import opened Sessions
  import opened SessionsInvariant
  import opened SessionsCases
  import opened SessionsSteps
  import opened SessionsActivation

  // ---- each transaction keeps the invariant ----

  // Up to the decision only the incoming message was registered.
  ghost predicate Incoming(s: Authority, m: Authority, incoming: Option<Id>) {
    && m.verifications == s.verifications && m.tables.outbox == s.tables.outbox
    && (match incoming
        case None => m.tables.inbox == s.tables.inbox
        case Some(id) => id !in s.tables.inbox && IsProcessing(m.tables, id)
                         && m.tables.inbox == s.tables.inbox[id := m.tables.inbox[id]])
  }

  lemma FinishIsReady(s: Authority, m: Authority, op: Id, resultId: Id, incoming: Option<Id>)
    requires op in s.verifications && VerificationOk(s, op) && Undecided(s, op) && resultId !in s.tables.outbox
    requires Incoming(s, m, incoming)
    ensures ReadyToDecide(m, op, resultId, incoming)
  {}

  lemma FinishDecides(s: Authority, m: Authority, now: Time, op: Id, status: VerificationStatus, body: Body,
                      code: Option<string>, resultId: Id, incoming: Option<Id>)
    requires op in s.verifications && VerificationOk(s, op) && Undecided(s, op) && resultId !in s.tables.outbox
    requires Incoming(s, m, incoming)
    requires ReadyToDecide(m, op, resultId, incoming)
    requires forall o | o in s.events :: o in m.events && m.events[o] == s.events[o]
    requires !status.VerificationPending? && (status.Expired? ==> StoredExpiry(s.verifications[op].command) <= now)
    requires (body.ActivatedBody? || body.ActivationRejectedBody?) && ResultOperation(body) == op
    ensures Decides(s, DecidedState(m, now, op, status, body, code, resultId, incoming), op, resultId, incoming)
  {}

  lemma RegisteredKeepsCore(s: Authority, m: Authority)
    requires CoreOk(s) && m == s.(tables := m.tables)
    ensures CoreOk(m)
  {}

  // Rejected or expired; `m` may hold a new identity.
  ghost predicate RefusalMidway(s: Authority, m: Authority, op: Id, incoming: Option<Id>) {
    Undecided(s, op) && Incoming(s, m, incoming) && m.events == s.events
  }

  predicate RefusalVerdict(s: Authority, now: Time, op: Id, status: VerificationStatus, body: Body,
                           code: Option<string>)
    requires op in s.verifications
  {
    && (status.Rejected? || (status.Expired? && StoredExpiry(s.verifications[op].command) <= now))
    && body.ActivationRejectedBody? && body.activationRejected.operationId == op
    && code == StoredCode(body.activationRejected.code)
  }

  lemma RefusalDecides(s: Authority, m: Authority, now: Time, op: Id, status: VerificationStatus, body: Body,
                       code: Option<string>, resultId: Id, incoming: Option<Id>)
    requires RefusalMidway(s, m, op, incoming) && VerificationOk(s, op) && resultId !in s.tables.outbox
    requires RefusalVerdict(s, now, op, status, body, code)
    ensures ReadyToDecide(m, op, resultId, incoming)
    ensures var d := DecidedState(m, now, op, status, body, code, resultId, incoming);
            Decides(s, d, op, resultId, incoming) && Announces(d, op, d.tables.outbox[resultId].body)
  {
    FinishIsReady(s, m, op, resultId, incoming);
    FinishDecides(s, m, now, op, status, body, code, resultId, incoming);
  }

  lemma RefusalKeepsInv(s: Authority, m: Authority, now: Time, op: Id, status: VerificationStatus, body: Body,
                        code: Option<string>, resultId: Id, incoming: Option<Id>)
    requires Inv(s) && RefusalMidway(s, m, op, incoming) && resultId !in s.tables.outbox && CoreOk(m)
    requires RefusalVerdict(s, now, op, status, body, code)
    ensures ReadyToDecide(m, op, resultId, incoming)
    ensures Inv(DecidedState(m, now, op, status, body, code, resultId, incoming))
  {
    assert VerificationOk(s, op);
    RefusalDecides(s, m, now, op, status, body, code, resultId, incoming);
    var d := DecidedState(m, now, op, status, body, code, resultId, incoming);
    RejectionKeepsCore(m, d, op);
    DecisionKeepsInv(s, d, op, resultId, incoming);
  }

  lemma RejectKeepsInv(s: Authority, m: Authority, now: Time, op: Id, code: string, retryable: bool, resultId: Id,
                       id: Id)
    requires Inv(s) && Undecided(s, op) && resultId !in s.tables.outbox
    requires m.verifications == s.verifications && m.tables.outbox == s.tables.outbox && m.events == s.events
    requires id !in s.tables.inbox && IsProcessing(m.tables, id)
    requires m.tables.inbox == s.tables.inbox[id := m.tables.inbox[id]]
    requires CoreOk(m)
    ensures FinishRejected(m, now, op, code, retryable, resultId, id).Commit?
    ensures Inv(FinishRejected(m, now, op, code, retryable, resultId, id).state)
  {
    assert VerificationOk(s, op);
    var body := ResultBody(m.verifications[op].command, Rejected, 0, code, retryable, now);
    var stored := if code == "" then None else Some(code);
    RefusalKeepsInv(s, m, now, op, Rejected, body, stored, resultId, Some(id));
    FinishSucceeds(m, now, op, Rejected, body, stored, resultId, Some(id));
  }

  // Midway through an activation: `m` has the wallet bound, `m'` the session and its event.
  ghost predicate ActivationMidway(s: Authority, m: Authority, m': Authority, op: Id, version: nat, id: Id) {
    && Undecided(s, op)
    && m.verifications == s.verifications && m.tables.outbox == s.tables.outbox && m.events == s.events
    && id !in s.tables.inbox && IsProcessing(m.tables, id) && m.tables.inbox == s.tables.inbox[id := m.tables.inbox[id]]
    && BoundTo(m, s.verifications[op].command) && Activates(m, m', s.verifications[op].command, version)
  }

  lemma ActivationDecides(s: Authority, m: Authority, m': Authority, now: Time, op: Id, version: nat, resultId: Id,
                          id: Id)
    requires ActivationMidway(s, m, m', op, version, id) && VerificationOk(s, op) && resultId !in s.tables.outbox
    ensures var body := ResultBody(s.verifications[op].command, Verified, version, "", false, now);
            && ReadyToDecide(m', op, resultId, Some(id))
            && var d := DecidedState(m', now, op, Verified, body, None, resultId, Some(id));
            && Decides(s, d, op, resultId, Some(id)) && Announces(d, op, d.tables.outbox[resultId].body)
  {
    var body := ResultBody(s.verifications[op].command, Verified, version, "", false, now);
    FinishIsReady(s, m', op, resultId, Some(id));
    FinishDecides(s, m', now, op, Verified, body, None, resultId, Some(id));
  }

  lemma ActivationDecidesCore(s: Authority, m: Authority, m': Authority, now: Time, op: Id, version: nat, resultId: Id,
                              id: Id)
    requires ActivationMidway(s, m, m', op, version, id) && VerificationOk(s, op) && CoreOk(m)
    requires ReadyToDecide(m', op, resultId, Some(id))
    ensures CoreOk(DecidedState(m', now, op, Verified,
                                ResultBody(s.verifications[op].command, Verified, version, "", false, now),
                                None, resultId, Some(id)))
  {
    var command := s.verifications[op].command;
    var body := ResultBody(command, Verified, version, "", false, now);
    ActivationKeepsCore(m, m', DecidedState(m', now, op, Verified, body, None, resultId, Some(id)), command, version);
  }

  lemma ActivationKeepsInv(s: Authority, m: Authority, m': Authority, now: Time, op: Id, version: nat, resultId: Id,
                           id: Id)
    requires Inv(s) && ActivationMidway(s, m, m', op, version, id) && resultId !in s.tables.outbox && CoreOk(m)
    ensures var tx := Finish(m', now, op, m'.verifications[op].commandId, Verified,
                             ResultBody(s.verifications[op].command, Verified, version, "", false, now), None, resultId,
                             Some(id));
            tx.Commit? && Inv(tx.state)
  {
    assert VerificationOk(s, op);
    var body := ResultBody(s.verifications[op].command, Verified, version, "", false, now);
    ActivationDecides(s, m, m', now, op, version, resultId, id);
    ActivationDecidesCore(s, m, m', now, op, version, resultId, id);
    FinishSucceeds(m', now, op, Verified, body, None, resultId, Some(id));
    DecisionKeepsInv(s, DecidedState(m', now, op, Verified, body, None, resultId, Some(id)), op, resultId, Some(id));
  }

  // Whatever a confirmed top-up leads to, it commits and keeps the invariant: no database error is reachable.
  lemma DecideVerifiedKeepsInv(s: Authority, m: Authority, now: Time, id: Id, verified: TopupVerified, resultId: Id)
    requires Inv(s) && Undecided(s, verified.operationId) && resultId !in s.tables.outbox
    requires m == s.(tables := s.tables.(inbox := m.tables.inbox)) && CoreOk(m)
    requires id !in s.tables.inbox && IsProcessing(m.tables, id)
    requires m.tables.inbox == s.tables.inbox[id := m.tables.inbox[id]]
    ensures DecideVerified(m, now, id, verified, resultId).Commit?
    ensures Inv(DecideVerified(m, now, id, verified, resultId).state)
  {
    var op := verified.operationId;
    var command := s.verifications[op].command;
    assert VerificationOk(s, op);
    if !FactsAccepted(verified, command, now) {
      RejectKeepsInv(s, m, now, op, "CONTRACT_VIOLATION", false, resultId, id);
    } else {
      var (m1, walletMatch) := EnsureIdentity(m, command);
      EnsureIdentityBinds(m, command);
      GrowthKeepsCore(m, m1);
      if !walletMatch {
        RejectKeepsInv(s, m1, now, op, "WALLET_MISMATCH", false, resultId, id);
      } else {
        UndecidedHasNoEvent(m1, op);
        UniqueIndexesNeverRefuse(m1, now, command);
        match ActivateSession(m1, now, command) {
          case Conflict => RejectKeepsInv(s, m1, now, op, "CONFLICT", false, resultId, id);
          case Activation(m2, version) =>
            ActivateSessionShape(m1, now, command);
            ActivationKeepsInv(s, m1, m2, now, op, version, resultId, id);
        }
      }
    }
  }

  lemma UndecidedHasNoEvent(s: Authority, op: Id)
    requires EventsOk(s) && Undecided(s, op)
    ensures op !in s.events
  {}

  lemma ReplayShape(s: Authority, r: InboxResult, now: Time)
    requires r.Duplicate?
    ensures OnlyOutboxEvolves(s, s.(tables := Replay(s.tables, r, now)))
  {}

  lemma ReplayKeepsInv(s: Authority, r: InboxResult, now: Time)
    requires Inv(s) && r.Duplicate?
    ensures Inv(s.(tables := Replay(s.tables, r, now)))
  {
    ReplayShape(s, r, now);
    OutboxChangeKeepsInv(s, s.(tables := Replay(s.tables, r, now)));
  }

  lemma WrittenAccepts(s: Authority, now: Time, id: Id, command: ActivationVerify, expiresAt: Time, topupId: Id,
                       topupExpiresAt: Time)
    requires topupId !in s.tables.outbox && id !in s.tables.inbox && command.operationId !in s.verifications
    requires var t := Register(s.tables, id, VerifyBody(command), expiresAt).0;
             Insert(t, topupId, TopupVerifyBody(FactsOf(command)), Command, now, topupExpiresAt).Commit?
    ensures var t := Register(s.tables, id, VerifyBody(command), expiresAt).0;
            var inserted := Insert(t, topupId, TopupVerifyBody(FactsOf(command)), Command, now, topupExpiresAt).state;
            Accepts(s, Written(s, inserted, now, id, command, topupId), id, command.operationId, topupId)
  {}

  lemma AcceptVerificationKeepsInv(s: Authority, now: Time, id: Id, command: ActivationVerify, expiresAt: Time,
                                   topupId: Id, topup: TopupVerify, topupExpiresAt: Time)
    requires Inv(s) && topupId !in s.tables.outbox && topup == FactsOf(command)
    ensures Inv(AcceptVerification(s, now, id, command, expiresAt, topupId, topup, topupExpiresAt).After(s))
  {
    var s' := AcceptVerification(s, now, id, command, expiresAt, topupId, topup, topupExpiresAt).After(s);
    var r := Register(s.tables, id, VerifyBody(command), expiresAt).1;
    AcceptCases(s, now, id, command, expiresAt, topupId, topup, topupExpiresAt);
    if r.Duplicate? {
      ReplayKeepsInv(s, r, now);
    } else if s' != s {
      WrittenAccepts(s, now, id, command, expiresAt, topupId, topupExpiresAt);
      AcceptKeepsInv(s, s', id, command.operationId, topupId);
    }
  }

  lemma VerifyKeepsInv(s: Authority, network: string, now: Time, id: Id, command: ActivationVerify, expiresAt: Time,
                       topupId: Id)
    requires Inv(s) && topupId !in s.tables.outbox
    ensures Inv(HandleVerify(s, network, now, id, command, expiresAt, topupId).After(s))
  {
    if command.asset == "USDT" {
      AcceptVerificationKeepsInv(s, now, id, command, expiresAt, topupId, FactsOf(command),
                                 Min(now + 5 * MINUTE, expiresAt));
    }
  }

  lemma LateTopupShape(s: Authority, id: Id, digest: Body, expiresAt: Time, now: Time)
    requires id !in s.tables.inbox
    ensures OnlyInboxGrows(s, s.(tables := Reject(Register(s.tables, id, digest, expiresAt).0, id, now)), id)
  {}

  // A top-up message seen for the first time, about an operation that is already decided.
  lemma LateTopupKeepsInv(s: Authority, id: Id, digest: Body, expiresAt: Time, now: Time)
    requires Inv(s) && id !in s.tables.inbox
    ensures Inv(s.(tables := Reject(Register(s.tables, id, digest, expiresAt).0, id, now)))
  {
    LateTopupShape(s, id, digest, expiresAt, now);
    RefusedKeepsInv(s, s.(tables := Reject(Register(s.tables, id, digest, expiresAt).0, id, now)), id);
  }

  lemma FreshVerifiedKeepsInv(s: Authority, now: Time, id: Id, verified: TopupVerified, expiresAt: Time, resultId: Id)
    requires Inv(s) && resultId !in s.tables.outbox && id !in s.tables.inbox && Undecided(s, verified.operationId)
    ensures var m := s.(tables := Register(s.tables, id, TopupVerifiedBody(verified), expiresAt).0);
            var tx := DecideVerified(m, now, id, verified, resultId); tx.Commit? && Inv(tx.state)
  {
    var m := s.(tables := Register(s.tables, id, TopupVerifiedBody(verified), expiresAt).0);
    RegisteredKeepsCore(s, m);
    DecideVerifiedKeepsInv(s, m, now, id, verified, resultId);
  }

  lemma TopupVerifiedKeepsInv(s: Authority, now: Time, id: Id, verified: TopupVerified, expiresAt: Time, resultId: Id)
    requires Inv(s) && resultId !in s.tables.outbox
    ensures Inv(ApplyTopupVerified(s, now, id, verified, expiresAt, resultId).After(s))
  {
    TopupVerifiedCases(s, now, id, verified, expiresAt, resultId);
    var r := Register(s.tables, id, TopupVerifiedBody(verified), expiresAt).1;
    if id in s.tables.inbox {
      if r.Duplicate? { ReplayKeepsInv(s, r, now); }
    } else if Undecided(s, verified.operationId) {
      FreshVerifiedKeepsInv(s, now, id, verified, expiresAt, resultId);
    } else {
      LateTopupKeepsInv(s, id, TopupVerifiedBody(verified), expiresAt, now);
    }
  }

  lemma FreshRejectedKeepsInv(s: Authority, now: Time, id: Id, rejection: Rejection, expiresAt: Time, resultId: Id)
    requires Inv(s) && resultId !in s.tables.outbox && id !in s.tables.inbox && Undecided(s, rejection.operationId)
    ensures var m := s.(tables := Register(s.tables, id, TopupRejectedBody(rejection), expiresAt).0);
            var tx := FinishRejected(m, now, rejection.operationId, rejection.code, rejection.retryable, resultId, id);
            tx.Commit? && Inv(tx.state)
  {
    var m := s.(tables := Register(s.tables, id, TopupRejectedBody(rejection), expiresAt).0);
    RegisteredKeepsCore(s, m);
    RejectKeepsInv(s, m, now, rejection.operationId, rejection.code, rejection.retryable, resultId, id);
  }

  lemma TopupRejectedKeepsInv(s: Authority, now: Time, id: Id, rejection: Rejection, expiresAt: Time, resultId: Id)
    requires Inv(s) && resultId !in s.tables.outbox
    ensures Inv(ApplyTopupRejected(s, now, id, rejection, expiresAt, resultId).After(s))
  {
    TopupRejectedCases(s, now, id, rejection, expiresAt, resultId);
    var r := Register(s.tables, id, TopupRejectedBody(rejection), expiresAt).1;
    if id in s.tables.inbox {
      if r.Duplicate? { ReplayKeepsInv(s, r, now); }
    } else if Undecided(s, rejection.operationId) {
      FreshRejectedKeepsInv(s, now, id, rejection, expiresAt, resultId);
    } else {
      LateTopupKeepsInv(s, id, TopupRejectedBody(rejection), expiresAt, now);
    }
  }

  lemma ExpireKeepsInv(s: Authority, now: Time, item: PendingRetry, freshId: Id)
    requires Inv(s) && Current(s, item) && freshId !in s.tables.outbox
    requires item.commandId == s.verifications[item.operationId].commandId
    requires StoredExpiry(s.verifications[item.operationId].command) <= now
    ensures ExpireVerification(s, now, item, freshId).Commit? && Inv(ExpireVerification(s, now, item, freshId).state)
  {
    var body := ActivationRejectedBody(Rejection(item.operationId, "EXPIRED", false));
    RefusalKeepsInv(s, s, now, item.operationId, Expired, body, Some("EXPIRED"), freshId, None);
    FinishSucceeds(s, now, item.operationId, Expired, body, Some("EXPIRED"), freshId, None);
  }

  // An item does nothing, expires a verification whose offer has passed, or replaces its dead command.
  lemma ReconcileCases(s: Authority, now: Time, passStart: Time, seen: Seen, freshId: Id)
    requires SeenOk(s, seen) && freshId !in s.tables.outbox && seen.at <= passStart <= now
    requires s.verifications[seen.item.operationId].command.operationId == seen.item.operationId
    ensures var item := seen.item;
            var s' := ReconcileItem(s, now, passStart, item, freshId).After(s);
            || s' == s
            || (Current(s, item) && item.commandId == s.verifications[item.operationId].commandId
                && StoredExpiry(s.verifications[item.operationId].command) <= now
                && s' == ExpireVerification(s, now, item, freshId).After(s))
            || Replaces(s, s', item.operationId, freshId)
  {}

  lemma ReconcileKeepsInv(s: Authority, now: Time, passStart: Time, seen: Seen, freshId: Id)
    requires Inv(s) && SeenOk(s, seen) && freshId !in s.tables.outbox && seen.at <= passStart <= now
    ensures Inv(ReconcileItem(s, now, passStart, seen.item, freshId).After(s))
  {
    var item, s' := seen.item, ReconcileItem(s, now, passStart, seen.item, freshId).After(s);
    assert VerificationOk(s, item.operationId);
    ReconcileCases(s, now, passStart, seen, freshId);
    if Replaces(s, s', item.operationId, freshId) {
      ReplaceKeepsInv(s, s', item.operationId, freshId);
    } else if s' != s {
      ExpireKeepsInv(s, now, item, freshId);
    }
  }
}
