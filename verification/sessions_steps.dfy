// Every step of the authority keeps its invariant.
module SessionsSteps {
  import opened Base
  import opened Contracts
  import opened Messages
  import opened Sessions
  import opened SessionsInvariant

  // ---- one row at a time: what a row needs to stay well-formed ----

  lemma VerificationStays(s: Authority, s': Authority, op: Id)
    requires op in s.verifications && VerificationOk(s, op)
    requires op in s'.verifications && s'.verifications[op] == s.verifications[op]
    requires var id := s.verifications[op].commandId; id in s'.tables.inbox && s'.tables.inbox[id] == s.tables.inbox[id]
    requires Evolves(s.tables.outbox, s'.tables.outbox)
    requires op in s.events ==> op in s'.events && s'.events[op] == s.events[op]
    ensures VerificationOk(s', op)
  {}

  lemma InboxRowStays(s: Authority, s': Authority, id: Id)
    requires id in s.tables.inbox && InboxRowOk(s, id)
    requires id in s'.tables.inbox && s'.tables.inbox[id] == s.tables.inbox[id]
    requires s.tables.inbox[id].status.Processing? ==>
               var op := s.tables.inbox[id].digest.verify.operationId;
               Undecided(s', op) && s'.verifications[op].commandId == s.verifications[op].commandId
    requires Evolves(s.tables.outbox, s'.tables.outbox)
    ensures InboxRowOk(s', id)
  {}

  function OperationOf(row: OutboxRow): Id
    requires IsResult(row) || (row.kind.Command? && row.body.TopupVerifyBody?)
  {
    if row.kind.Result? then ResultOperation(row.body) else row.body.topupVerify.operationId
  }

  lemma OutboxRowStays(s: Authority, s': Authority, id: Id)
    requires id in s.tables.outbox && OutboxRowOk(s, id)
    requires id in s'.tables.outbox && RowEvolves(s.tables.outbox[id], s'.tables.outbox[id])
    requires var op := OperationOf(s.tables.outbox[id]);
             && op in s'.verifications && s'.verifications[op] == s.verifications[op]
             && (s.tables.outbox[id].kind.Result? ==>
                   var c := s.verifications[op].commandId;
                   c in s'.tables.inbox && s'.tables.inbox[c] == s.tables.inbox[c])
    ensures OutboxRowOk(s', id)
  {}

  // Identities, sessions and events keep their part of the invariant when the decisions stay.
  ghost predicate SameDecisions(s: Authority, s': Authority) {
    && s'.identities == s.identities && s'.sessions == s.sessions && s'.events == s.events
    && (forall op | op in s.verifications :: op in s'.verifications
                                             && (s'.verifications[op].status.Verified?
                                                 <==> s.verifications[op].status.Verified?)
                                             && s'.verifications[op].command == s.verifications[op].command)
    && (forall op | op in s'.verifications && op !in s.verifications ::
          s'.verifications[op].status.VerificationPending?)
  }

  ghost predicate CoreOk(s: Authority) {
    IdentitiesOk(s) && EventsOk(s) && SessionsOk(s) && VersionsOk(s)
  }

  lemma SameDecisionsKeepEvents(s: Authority, s': Authority)
    requires EventsOk(s) && SameDecisions(s, s')
    ensures EventsOk(s')
  {}

  lemma SameDecisionsKeepCore(s: Authority, s': Authority)
    requires CoreOk(s) && SameDecisions(s, s')
    ensures CoreOk(s')
  {
    SameDecisionsKeepEvents(s, s');
    forall id ensures EventsOf(s', id) == EventsOf(s, id) {}
  }

  // ---- steps that only touch the outbox ----

  ghost predicate OnlyOutboxEvolves(s: Authority, s': Authority) {
    && Evolves(s.tables.outbox, s'.tables.outbox) && s'.tables.outbox.Keys == s.tables.outbox.Keys
    && s' == s.(tables := s.tables.(outbox := s'.tables.outbox))
  }

  lemma OutboxChangeKeepsInv(s: Authority, s': Authority)
    requires Inv(s) && OnlyOutboxEvolves(s, s')
    ensures Inv(s')
  {
    assert VerificationsOk(s') by {
      forall op | op in s'.verifications ensures VerificationOk(s', op) { VerificationStays(s, s', op); }
    }
    assert InboxOk(s') by {
      forall id | id in s'.tables.inbox ensures InboxRowOk(s', id) { InboxRowStays(s, s', id); }
    }
    assert OutboxRowsOk(s') by {
      OutboxChangeKeepsOutbox(s, s');
    }
    SameDecisionsKeepCore(s, s');
  }

  lemma OutboxChangeKeepsOutbox(s: Authority, s': Authority)
    requires OutboxRowsOk(s) && OnlyOutboxEvolves(s, s')
    ensures OutboxRowsOk(s')
  {}

  // ---- a top-up message for a verification that is already decided ----

  ghost predicate OnlyInboxGrows(s: Authority, s': Authority, id: Id) {
    && id !in s.tables.inbox && id in s'.tables.inbox
    && s' == s.(tables := s.tables.(inbox := s.tables.inbox[id := s'.tables.inbox[id]]))
    && s'.tables.inbox[id].status.Refused? && s'.tables.inbox[id].resultId.None?
  }

  lemma RefusedKeepsInv(s: Authority, s': Authority, id: Id)
    requires Inv(s) && OnlyInboxGrows(s, s', id)
    ensures Inv(s')
  {
    assert VerificationsOk(s') by {
      forall op | op in s'.verifications ensures VerificationOk(s', op) {
        assert VerificationOk(s, op);
        VerificationStays(s, s', op);
      }
    }
    assert InboxOk(s') by {
      forall i | i in s'.tables.inbox ensures InboxRowOk(s', i) {
        if i != id { InboxRowStays(s, s', i); }
      }
    }
    assert OutboxRowsOk(s') by { RefusedKeepsOutbox(s, s', id); }
    SameDecisionsKeepCore(s, s');
  }

  lemma RefusedKeepsOutbox(s: Authority, s': Authority, id: Id)
    requires OutboxRowsOk(s) && OnlyInboxGrows(s, s', id)
    ensures OutboxRowsOk(s')
  {}

  // ---- accepting a command ----

  ghost predicate Accepts(s: Authority, s': Authority, id: Id, op: Id, topupId: Id) {
    && op !in s.verifications && id !in s.tables.inbox && topupId !in s.tables.outbox
    && op in s'.verifications && id in s'.tables.inbox && topupId in s'.tables.outbox
    && s' == s.(verifications := s.verifications[op := s'.verifications[op]],
             tables := Tables(s.tables.inbox[id := s'.tables.inbox[id]],
                              s.tables.outbox[topupId := s'.tables.outbox[topupId]]))
    && var v, command, row := s'.verifications[op], s'.tables.inbox[id], s'.tables.outbox[topupId];
    && v.status.VerificationPending? && v.completedAt.None? && v.commandId == id && v.topupId == topupId
    && v.command.operationId == op && command.digest == VerifyBody(v.command)
    && command.status.Processing? && command.resultId.None? && IsTopupCommandFor(row, v.command)
  }

  lemma AcceptedIsOk(s: Authority, s': Authority, id: Id, op: Id, topupId: Id)
    requires Accepts(s, s', id, op, topupId)
    ensures VerificationOk(s', op)
  {}

  lemma AcceptKeepsVerification(s: Authority, s': Authority, id: Id, op: Id, topupId: Id, o: Id)
    requires Accepts(s, s', id, op, topupId) && o in s.verifications && VerificationOk(s, o)
    ensures o in s'.verifications && VerificationOk(s', o)
  {
    VerificationStays(s, s', o);
  }

  lemma AcceptKeepsVerifications(s: Authority, s': Authority, id: Id, op: Id, topupId: Id)
    requires VerificationsOk(s) && Accepts(s, s', id, op, topupId)
    ensures VerificationsOk(s')
  {
    AcceptedIsOk(s, s', id, op, topupId);
    forall o | o in s.verifications ensures o in s'.verifications && VerificationOk(s', o) {
      assert VerificationOk(s, o);
      AcceptKeepsVerification(s, s', id, op, topupId, o);
    }
  }

  lemma AcceptKeepsInbox(s: Authority, s': Authority, id: Id, op: Id, topupId: Id)
    requires InboxOk(s) && Accepts(s, s', id, op, topupId)
    ensures InboxOk(s')
  {}

  lemma AcceptKeepsOutbox(s: Authority, s': Authority, id: Id, op: Id, topupId: Id)
    requires OutboxRowsOk(s) && Accepts(s, s', id, op, topupId)
    ensures OutboxRowsOk(s')
  {}

  lemma AcceptKeepsCore(s: Authority, s': Authority, id: Id, op: Id, topupId: Id)
    requires CoreOk(s) && Accepts(s, s', id, op, topupId)
    ensures CoreOk(s')
  {
    SameDecisionsKeepCore(s, s');
  }

  lemma AcceptKeepsInv(s: Authority, s': Authority, id: Id, op: Id, topupId: Id)
    requires Inv(s) && Accepts(s, s', id, op, topupId)
    ensures Inv(s')
  {
    AcceptKeepsVerifications(s, s', id, op, topupId);
    AcceptKeepsInbox(s, s', id, op, topupId);
    AcceptKeepsOutbox(s, s', id, op, topupId);
    AcceptKeepsCore(s, s', id, op, topupId);
  }

  // ---- replacing a dead top-up command ----

  ghost predicate Replaces(s: Authority, s': Authority, op: Id, newId: Id) {
    && op in s.verifications && s.verifications[op].status.VerificationPending?
    && op in s'.verifications && newId !in s.tables.outbox && newId in s'.tables.outbox
    && s' == s.(verifications := s.verifications[op := s'.verifications[op]],
             tables := s.tables.(outbox := s.tables.outbox[newId := s'.tables.outbox[newId]]))
    && IsTopupCommandFor(s'.tables.outbox[newId], s.verifications[op].command)
    && var v, v' := s.verifications[op], s'.verifications[op];
    && v'.topupId == newId && v'.command == v.command && v'.commandId == v.commandId && v'.status == v.status
    && v'.completedAt == v.completedAt
    && v.topupId in s.tables.outbox && s.tables.outbox[v.topupId].status.Dead?
  }

  lemma ReplacedIsOk(s: Authority, s': Authority, op: Id, newId: Id)
    requires Replaces(s, s', op, newId) && VerificationOk(s, op)
    ensures VerificationOk(s', op)
  {}

  lemma ReplaceKeepsVerification(s: Authority, s': Authority, op: Id, newId: Id, o: Id)
    requires Replaces(s, s', op, newId) && o in s.verifications && o != op && VerificationOk(s, o)
    ensures o in s'.verifications && VerificationOk(s', o)
  {
    VerificationStays(s, s', o);
  }

  lemma ReplaceKeepsVerifications(s: Authority, s': Authority, op: Id, newId: Id)
    requires VerificationsOk(s) && Replaces(s, s', op, newId)
    ensures VerificationsOk(s')
  {
    forall o | o in s'.verifications ensures VerificationOk(s', o) {
      assert VerificationOk(s, o);
      if o == op { ReplacedIsOk(s, s', op, newId); } else { ReplaceKeepsVerification(s, s', op, newId, o); }
    }
  }

  lemma ReplaceKeepsInbox(s: Authority, s': Authority, op: Id, newId: Id)
    requires InboxOk(s) && Replaces(s, s', op, newId)
    ensures InboxOk(s')
  {}

  lemma ReplacementIsOk(s: Authority, s': Authority, op: Id, newId: Id)
    requires Replaces(s, s', op, newId) && VerificationOk(s, op)
    ensures OutboxRowOk(s', newId)
  {}

  lemma ReplaceKeepsOutboxRow(s: Authority, s': Authority, op: Id, newId: Id, i: Id)
    requires Replaces(s, s', op, newId) && i in s.tables.outbox && OutboxRowOk(s, i) && VerificationOk(s, op)
    ensures i in s'.tables.outbox && OutboxRowOk(s', i)
  {
    if OperationOf(s.tables.outbox[i]) != op { OutboxRowStays(s, s', i); }
  }

  lemma ReplaceKeepsOutbox(s: Authority, s': Authority, op: Id, newId: Id)
    requires OutboxRowsOk(s) && op in s.verifications && VerificationOk(s, op) && Replaces(s, s', op, newId)
    ensures OutboxRowsOk(s')
  {
    ReplacementIsOk(s, s', op, newId);
    forall i | i in s.tables.outbox ensures i in s'.tables.outbox && OutboxRowOk(s', i) {
      assert OutboxRowOk(s, i);
      ReplaceKeepsOutboxRow(s, s', op, newId, i);
    }
  }

  lemma ReplaceKeepsCore(s: Authority, s': Authority, op: Id, newId: Id)
    requires CoreOk(s) && Replaces(s, s', op, newId)
    ensures CoreOk(s')
  {
    SameDecisionsKeepCore(s, s');
  }

  lemma ReplaceKeepsInv(s: Authority, s': Authority, op: Id, newId: Id)
    requires Inv(s) && Replaces(s, s', op, newId)
    ensures Inv(s')
  {
    ReplaceKeepsVerifications(s, s', op, newId);
    assert VerificationOk(s, op);
    ReplaceKeepsInbox(s, s', op, newId);
    ReplaceKeepsOutbox(s, s', op, newId);
    ReplaceKeepsCore(s, s', op, newId);
  }

  // ---- deciding ----

  // The database before (s) and after (d) a decision of `op`; `incoming` is the top-up message that caused it.
  ghost predicate Decides(s: Authority, d: Authority, op: Id, resultId: Id, incoming: Option<Id>) {
    && op in s.verifications && s.verifications[op].status.VerificationPending?
    && resultId !in s.tables.outbox && resultId in d.tables.outbox && IsResult(d.tables.outbox[resultId])
    && var v, c, topup := s.verifications[op], s.verifications[op].commandId, s.verifications[op].topupId;
    && c in s.tables.inbox && topup in s.tables.outbox && c in d.tables.inbox && topup in d.tables.outbox
    // the verification
    && op in d.verifications && d.verifications == s.verifications[op := d.verifications[op]]
    && var v' := d.verifications[op];
    && v'.command == v.command && v'.commandId == c && v'.topupId == topup && !v'.status.VerificationPending?
    && v'.completedAt.Some? && (v'.status.Expired? ==> StoredExpiry(v.command) <= v'.completedAt.value)
    && ResultOperation(d.tables.outbox[resultId].body) == op
    && IsAnswerAt(d.tables.outbox[resultId], v'.completedAt.value)
    // the outbox
    && d.tables.outbox == s.tables.outbox[resultId := d.tables.outbox[resultId]][topup := d.tables.outbox[topup]]
    && RowEvolves(s.tables.outbox[topup], d.tables.outbox[topup]) && Settled(d.tables.outbox[topup])
    // the inbox
    && d.tables.inbox[c].digest == s.tables.inbox[c].digest
    && d.tables.inbox[c].status.Completed? && d.tables.inbox[c].resultId == Some(resultId)
    && (match incoming
        case None => d.tables.inbox == s.tables.inbox[c := d.tables.inbox[c]]
        case Some(id) =>
          && id !in s.tables.inbox && id in d.tables.inbox
          && d.tables.inbox == s.tables.inbox[c := d.tables.inbox[c]][id := d.tables.inbox[id]]
          && d.tables.inbox[id].status.Completed? && d.tables.inbox[id].resultId == Some(resultId))
    // events of other operations
    && (forall o | o in s.events :: o in d.events && d.events[o] == s.events[o])
  }

  lemma DecisionKeepsVerification(s: Authority, d: Authority, op: Id, resultId: Id, incoming: Option<Id>, o: Id)
    requires Decides(s, d, op, resultId, incoming) && VerificationOk(s, op)
    requires o in s.verifications && o != op && VerificationOk(s, o)
    ensures VerificationOk(d, o)
  {}

  lemma DecidedVerificationIsOk(s: Authority, d: Authority, op: Id, resultId: Id, incoming: Option<Id>)
    requires op in s.verifications && VerificationOk(s, op) && Decides(s, d, op, resultId, incoming)
    requires Announces(d, op, d.tables.outbox[resultId].body)
    ensures VerificationOk(d, op)
  {}

  lemma DecisionKeepsVerifications(s: Authority, d: Authority, op: Id, resultId: Id, incoming: Option<Id>)
    requires VerificationsOk(s) && Decides(s, d, op, resultId, incoming)
    requires Announces(d, op, d.tables.outbox[resultId].body)
    ensures VerificationsOk(d)
  {
    forall o | o in d.verifications ensures VerificationOk(d, o) {
      assert VerificationOk(s, o) && VerificationOk(s, op);
      if o != op { DecisionKeepsVerification(s, d, op, resultId, incoming, o); }
      else { DecidedVerificationIsOk(s, d, op, resultId, incoming); }
    }
  }

  lemma DecisionKeepsInbox(s: Authority, d: Authority, op: Id, resultId: Id, incoming: Option<Id>)
    requires InboxOk(s) && op in s.verifications && VerificationOk(s, op) && Decides(s, d, op, resultId, incoming)
    ensures InboxOk(d)
  {}

  lemma DecisionRowIsOk(s: Authority, d: Authority, op: Id, resultId: Id, incoming: Option<Id>)
    requires op in s.verifications && VerificationOk(s, op) && Decides(s, d, op, resultId, incoming)
    ensures resultId in d.tables.outbox && OutboxRowOk(d, resultId)
  {}

  lemma DecisionKeepsOutbox(s: Authority, d: Authority, op: Id, resultId: Id, incoming: Option<Id>)
    requires OutboxRowsOk(s) && VerificationsOk(s) && Decides(s, d, op, resultId, incoming)
    ensures OutboxRowsOk(d)
  {
    assert VerificationOk(s, op);
    DecisionRowIsOk(s, d, op, resultId, incoming);
    forall id | id in d.tables.outbox && id != resultId ensures OutboxRowOk(d, id) {
      assert OutboxRowOk(s, id) && VerificationOk(s, OperationOf(s.tables.outbox[id]));
      DecisionKeepsOutboxRow(s, d, op, resultId, incoming, id);
    }
  }

  lemma DecisionKeepsOutboxRow(s: Authority, d: Authority, op: Id, resultId: Id, incoming: Option<Id>, id: Id)
    requires op in s.verifications && VerificationOk(s, op) && Decides(s, d, op, resultId, incoming)
    requires id in s.tables.outbox && id in d.tables.outbox && OutboxRowOk(s, id)
    requires var o := OperationOf(s.tables.outbox[id]); o in s.verifications && VerificationOk(s, o)
    ensures OutboxRowOk(d, id)
  {}

  lemma DecisionKeepsInv(s: Authority, d: Authority, op: Id, resultId: Id, incoming: Option<Id>)
    requires VerificationsOk(s) && InboxOk(s) && OutboxRowsOk(s) && Decides(s, d, op, resultId, incoming)
    requires Announces(d, op, d.tables.outbox[resultId].body) && CoreOk(d)
    ensures Inv(d)
  {
    assert VerificationOk(s, op);
    DecisionKeepsVerifications(s, d, op, resultId, incoming);
    DecisionKeepsInbox(s, d, op, resultId, incoming);
    DecisionKeepsOutbox(s, d, op, resultId, incoming);
  }
}
