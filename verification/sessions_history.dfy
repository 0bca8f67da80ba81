// What no step of the authority ever takes back.
module SessionsHistory {
  import opened Base
  import opened Contracts
  import opened Messages
  import opened Sessions
  import opened SessionsInvariant
  import opened SessionsActivation

  predicate VerificationContinues(v: Verification, v': Verification) {
    && v'.command == v.command && v'.commandId == v.commandId
    && (!v.status.VerificationPending? ==> v' == v)
  }

  predicate SessionContinues(x: Session, x': Session) {
    x'.identity == x.identity && x.version <= x'.version
  }

  // Decisions, bindings, events and completed inbox rows are final; settled outbox rows keep their status.
  ghost predicate Continues(s: Authority, s': Authority) {
    && Evolves(s.tables.outbox, s'.tables.outbox)
    && (forall op | op in s.verifications :: op in s'.verifications
                                             && VerificationContinues(s.verifications[op], s'.verifications[op]))
    && InboxContinues(s.tables.inbox, s'.tables.inbox)
    && (forall id | id in s.sessions :: id in s'.sessions && SessionContinues(s.sessions[id], s'.sessions[id]))
    && (forall op | op in s.events :: op in s'.events && s'.events[op] == s.events[op])
    && IdentitiesGrow(s, s')
  }

  lemma ContinuesReflexive(s: Authority)
    ensures Continues(s, s)
  {}

  lemma ContinuesTransitive(a: Authority, b: Authority, c: Authority)
    requires Continues(a, b) && Continues(b, c)
    ensures Continues(a, c)
  {}

  lemma FinishEvolves(s: Authority, now: Time, op: Id, commandId: Id, status: VerificationStatus, body: Body,
                      code: Option<string>, resultId: Id, incoming: Option<Id>)
    requires op in s.verifications
    ensures Evolves(s.tables.outbox, Finish(s, now, op, commandId, status, body, code, resultId,
                                            incoming).After(s).tables.outbox)
  {
    var tx := Finish(s, now, op, commandId, status, body, code, resultId, incoming);
    if tx.Commit? {
      var t1 := Insert(s.tables, resultId, body, Result, now, now + 24 * HOUR).state;
      var t2 := t1.(inbox := tx.state.tables.inbox);
      ConfirmEvolves(t2, s.verifications[op].topupId, now);
      EvolvesTransitive(s.tables.outbox, t2.outbox, tx.state.tables.outbox);
    }
  }

  lemma FinishKeepsRows(s: Authority, now: Time, op: Id, commandId: Id, status: VerificationStatus, body: Body,
                        code: Option<string>, resultId: Id, incoming: Option<Id>, bound: Time)
    requires op in s.verifications && s.verifications[op].topupId in s.tables.outbox
    requires s.tables.outbox[s.verifications[op].topupId].kind.Command?
    requires OutboxOk(s.tables.outbox, now, bound) && 0 <= bound
    ensures RowsStep(s.tables.outbox, Finish(s, now, op, commandId, status, body, code, resultId,
                                             incoming).After(s).tables.outbox, now, bound)
  {
    var tx := Finish(s, now, op, commandId, status, body, code, resultId, incoming);
    if tx.Commit? {
      var t1 := Insert(s.tables, resultId, body, Result, now, now + 24 * HOUR).state;
      var t2 := t1.(inbox := tx.state.tables.inbox);
      InsertKeepsRows(s.tables, resultId, body, Result, now, now + 24 * HOUR, bound);
      ConfirmKeepsRows(t2, s.verifications[op].topupId, now, bound);
    }
  }

  lemma FinishContinues(s: Authority, now: Time, op: Id, commandId: Id, status: VerificationStatus, body: Body,
                        code: Option<string>, resultId: Id, incoming: Option<Id>)
    requires Undecided(s, op)
    ensures Continues(s, Finish(s, now, op, commandId, status, body, code, resultId, incoming).After(s))
  {
    FinishEvolves(s, now, op, commandId, status, body, code, resultId, incoming);
    FinishInbox(s, now, op, commandId, status, body, code, resultId, incoming);
  }

  lemma CompleteContinues(t: Tables, id: Id, resultId: Id, now: Time)
    ensures InboxContinues(t.inbox, Complete(t, id, resultId, now).After(t).inbox)
    ensures Complete(t, id, resultId, now).After(t).outbox == t.outbox
  {}

  lemma CompleteBothContinues(t: Tables, now: Time, commandId: Id, resultId: Id, incoming: Option<Id>)
    ensures var t' := CompleteBoth(t, now, commandId, resultId, incoming).After(t);
            InboxContinues(t.inbox, t'.inbox) && t'.outbox == t.outbox
  {
    var t1 := Complete(t, commandId, resultId, now).After(t);
    CompleteContinues(t, commandId, resultId, now);
    if incoming.Some? {
      CompleteContinues(t1, incoming.value, resultId, now);
      InboxContinuesTransitive(t.inbox, t1.inbox, Complete(t1, incoming.value, resultId, now).After(t1).inbox);
    }
  }

  lemma FinishTablesContinues(t: Tables, now: Time, commandId: Id, topupId: Id, body: Body, resultId: Id,
                              incoming: Option<Id>)
    ensures var t' := FinishTables(t, now, commandId, topupId, body, resultId, incoming).After(t);
            InboxContinues(t.inbox, t'.inbox)
  {
    var inserted := Insert(t, resultId, body, Result, now, now + 24 * HOUR);
    if inserted.Commit? { CompleteBothContinues(inserted.state, now, commandId, resultId, incoming); }
  }

  lemma FinishInbox(s: Authority, now: Time, op: Id, commandId: Id, status: VerificationStatus, body: Body,
                    code: Option<string>, resultId: Id, incoming: Option<Id>)
    requires Undecided(s, op)
    ensures var s' := Finish(s, now, op, commandId, status, body, code, resultId, incoming).After(s);
            && InboxContinues(s.tables.inbox, s'.tables.inbox)
            && (forall o | o in s.verifications :: o in s'.verifications
                                                   && VerificationContinues(s.verifications[o], s'.verifications[o]))
            && s'.identities == s.identities && s'.sessions == s.sessions && s'.events == s.events
  {
    FinishTablesContinues(s.tables, now, commandId, s.verifications[op].topupId, body, resultId, incoming);
  }

  lemma EnsureIdentityContinues(s: Authority, command: ActivationVerify)
    ensures Continues(s, EnsureIdentity(s, command).0)
  {}

  lemma ActivateSessionContinues(s: Authority, now: Time, command: ActivationVerify)
    requires ActivateSession(s, now, command).Activation?
    ensures Continues(s, ActivateSession(s, now, command).state)
  {}

  lemma DecideVerifiedContinues(m: Authority, now: Time, id: Id, verified: TopupVerified, resultId: Id)
    requires Undecided(m, verified.operationId)
    ensures DecideVerified(m, now, id, verified, resultId).Commit? ==>
              Continues(m, DecideVerified(m, now, id, verified, resultId).state)
  {
    var op, tx := verified.operationId, DecideVerified(m, now, id, verified, resultId);
    var command := m.verifications[op].command;
    if tx.Commit? {
      if !FactsAccepted(verified, command, now) {
        FinishRejectedContinues(m, now, op, "CONTRACT_VIOLATION", false, resultId, id);
      } else {
        var (m1, walletMatch) := EnsureIdentity(m, command);
        EnsureIdentityContinues(m, command);
        if !walletMatch {
          FinishRejectedContinues(m1, now, op, "WALLET_MISMATCH", false, resultId, id);
          ContinuesTransitive(m, m1, tx.state);
        } else {
          match ActivateSession(m1, now, command) {
            case Conflict =>
              FinishRejectedContinues(m1, now, op, "CONFLICT", false, resultId, id);
              ContinuesTransitive(m, m1, tx.state);
            case Activation(m2, version) =>
              ActivateSessionContinues(m1, now, command);
              var body := ResultBody(command, Verified, version, "", false, now);
              FinishContinues(m2, now, op, m2.verifications[op].commandId, Verified, body, None, resultId, Some(id));
              ContinuesTransitive(m, m1, m2);
              ContinuesTransitive(m, m2, tx.state);
          }
        }
      }
    }
  }

  lemma FinishRejectedContinues(s: Authority, now: Time, op: Id, code: string, retryable: bool, resultId: Id, id: Id)
    requires Undecided(s, op)
    ensures FinishRejected(s, now, op, code, retryable, resultId, id).Commit? ==>
              Continues(s, FinishRejected(s, now, op, code, retryable, resultId, id).state)
  {
    FinishContinues(s, now, op, s.verifications[op].commandId, Rejected,
                    ResultBody(s.verifications[op].command, Rejected, 0, code, retryable, now),
                    if code == "" then None else Some(code), resultId, Some(id));
  }
}
