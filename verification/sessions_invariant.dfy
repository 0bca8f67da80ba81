// What every reachable database of the authority satisfies.
module SessionsInvariant {
  import opened Base
  import opened Contracts
  import opened Messages
  import opened Sessions

  // ---- the invariant, table by table ----

  predicate Undecided(s: Authority, op: Id) {
    op in s.verifications && s.verifications[op].status.VerificationPending?
  }

  // The top-up command asks for exactly the facts of the verification.
  predicate IsTopupCommandFor(row: OutboxRow, command: ActivationVerify) {
    row.kind.Command? && row.body == TopupVerifyBody(FactsOf(command))
  }

  function ResultOperation(body: Body): Id
    requires body.ActivatedBody? || body.ActivationRejectedBody?
  {
    if body.ActivatedBody? then body.activated.operationId else body.activationRejected.operationId
  }

  predicate IsResult(row: OutboxRow) {
    row.kind.Result? && (row.body.ActivatedBody? || row.body.ActivationRejectedBody?)
  }

  // NULLIF(code, '')
  function StoredCode(code: string): Option<string> { if code == "" then None else Some(code) }

  // The result announces exactly what was decided.
  predicate Announces(s: Authority, op: Id, body: Body)
    requires op in s.verifications
  {
    var v := s.verifications[op];
    if v.status.Verified? then
      && body.ActivatedBody? && op in s.events
      && body.activated.operationId == op && body.activated.sessionId == v.command.sessionId
      && body.activated.balanceId == v.command.balanceId && body.activated.status == "ACTIVE"
      && body.activated.authorityVersion == s.events[op].version && body.activated.activatedAt == v.completedAt
    else
      && body.ActivationRejectedBody? && body.activationRejected.operationId == op
      && v.failureCode == StoredCode(body.activationRejected.code)
  }

  // A result is kept for a day from the moment of the decision.
  predicate IsAnswerAt(row: OutboxRow, at: Time) {
    row.createdAt == at && row.expiresAt == TruncateToMicros(at + 24 * HOUR)
  }

  predicate VerificationOk(s: Authority, op: Id)
    requires op in s.verifications
  {
    var v, inbox, outbox := s.verifications[op], s.tables.inbox, s.tables.outbox;
    && v.command.operationId == op
    && v.commandId in inbox && inbox[v.commandId].digest == VerifyBody(v.command)
    && v.topupId in outbox && IsTopupCommandFor(outbox[v.topupId], v.command)
    && (if v.status.VerificationPending? then
          inbox[v.commandId].status.Processing? && v.completedAt.None?
        else
          var row := inbox[v.commandId];
          && row.status.Completed? && row.resultId.Some? && row.resultId.value in outbox
          && outbox[row.resultId.value].kind.Result? && Announces(s, op, outbox[row.resultId.value].body)
          && v.completedAt.Some? && (v.status.Expired? ==> StoredExpiry(v.command) <= v.completedAt.value)
          && IsAnswerAt(outbox[row.resultId.value], v.completedAt.value))
  }

  ghost predicate VerificationsOk(s: Authority) {
    forall op | op in s.verifications :: VerificationOk(s, op)
  }

  predicate InboxRowOk(s: Authority, id: Id)
    requires id in s.tables.inbox
  {
    var row := s.tables.inbox[id];
    && (row.status.Processing? ==>
          row.digest.VerifyBody? && Undecided(s, row.digest.verify.operationId)
          && s.verifications[row.digest.verify.operationId].commandId == id)
    && (row.status.Completed? <==> row.resultId.Some?)
    && (row.resultId.Some? ==> row.resultId.value in s.tables.outbox
                               && s.tables.outbox[row.resultId.value].kind.Result?)
  }

  ghost predicate InboxOk(s: Authority) {
    forall id | id in s.tables.inbox :: InboxRowOk(s, id)
  }

  predicate OutboxRowOk(s: Authority, id: Id)
    requires id in s.tables.outbox
  {
    var row := s.tables.outbox[id];
    match row.kind
    case Result =>
      && IsResult(row)
      && var op := ResultOperation(row.body);
      && op in s.verifications && !Undecided(s, op)
      && s.verifications[op].commandId in s.tables.inbox
      && s.tables.inbox[s.verifications[op].commandId].resultId == Some(id)
    case Command =>
      && row.body.TopupVerifyBody?
      && var op := row.body.topupVerify.operationId;
      && op in s.verifications
      && (s.verifications[op].topupId != id ==> row.status.Dead?)
      && (!Undecided(s, op) ==> Settled(row))
  }

  ghost predicate OutboxRowsOk(s: Authority) {
    forall id | id in s.tables.outbox :: OutboxRowOk(s, id)
  }

  ghost predicate IdentitiesOk(s: Authority) {
    forall key | key in s.identities ::
      key == Fingerprint(s.identities[key].balanceId)
      && s.identities[key].walletFingerprint == Fingerprint(s.identities[key].wallet)
  }

  predicate BoundTo(s: Authority, command: ActivationVerify) {
    var key := Fingerprint(command.balanceId);
    key in s.identities && s.identities[key].network == command.network
    && s.identities[key].wallet == command.senderWallet
  }

  // The first event tells who the session belongs to, the latest one how it was activated last.
  predicate Records(event: SessionEvent, session: Session, command: ActivationVerify) {
    && event.network == command.network && event.transactionId == command.transactionId
    && (event.eventType.ActivatedEvent? <==> event.version == 1)
    && (event.version == 1 ==>
          && session.botId == command.botId && session.userId == command.userId
          && session.displayLabel == command.displayLabel
          && session.firstActivatedAt == event.occurredAt)
    && (event.version == session.version ==>
          && session.chatId == command.chatId && session.network == command.network
          && session.transactionId == command.transactionId && session.lastActivatedAt == event.occurredAt)
  }

  predicate EventOk(s: Authority, op: Id)
    requires op in s.events
  {
    var event := s.events[op];
    && op in s.verifications && s.verifications[op].status.Verified?
    && event.sessionId == s.verifications[op].command.sessionId
    && BoundTo(s, s.verifications[op].command)
    && event.sessionId in s.sessions
    && s.sessions[event.sessionId].identity == Fingerprint(s.verifications[op].command.balanceId)
    && 1 <= event.version <= s.sessions[event.sessionId].version
    && Records(event, s.sessions[event.sessionId], s.verifications[op].command)
  }

  ghost predicate EventsOk(s: Authority) {
    && (forall op | op in s.events :: EventOk(s, op))
    && (forall op | op in s.verifications && s.verifications[op].status.Verified? :: op in s.events)
  }

  ghost predicate SessionsOk(s: Authority) {
    && (forall id | id in s.sessions ::
          s.sessions[id].status.Active? && s.sessions[id].identity in s.identities && s.sessions[id].version >= 1)
    && (forall id | id in s.sessions :: UniqueAgainst(s.sessions, id, s.sessions[id]))
  }

  ghost function EventsOf(s: Authority, id: Id): set<Id> {
    set op | op in s.events && s.events[op].sessionId == id
  }

  ghost predicate VersionsOk(s: Authority) {
    && (forall id | id in s.sessions :: |EventsOf(s, id)| == s.sessions[id].version)
    && (forall a, b | a in s.events && b in s.events && s.events[a].sessionId == s.events[b].sessionId
                      && s.events[a].version == s.events[b].version :: a == b)
  }

  ghost predicate Inv(s: Authority) {
    && VerificationsOk(s) && InboxOk(s) && OutboxRowsOk(s)
    && IdentitiesOk(s) && EventsOk(s) && SessionsOk(s) && VersionsOk(s)
  }

  // An item read by the reconciler: its fixed facts, and a dead command whenever its offer was then alive.
  predicate SeenOk(s: Authority, seen: Seen) {
    var item := seen.item;
    && item.operationId in s.verifications
    && var v := s.verifications[item.operationId];
    && item.commandId == v.commandId && item.offerExpiresAt == StoredExpiry(v.command)
    && item.facts == FactsOf(v.command)
    && item.topupId in s.tables.outbox
    && (seen.at < item.offerExpiresAt ==> s.tables.outbox[item.topupId].status.Dead?)
  }

  lemma EmptyInv()
    ensures Inv(EMPTY)
  {}

  // ---- the shape of a decision ----

  function CompletedRow(row: InboxRow, resultId: Id, now: Time): InboxRow {
    row.(status := Completed, resultId := Some(resultId), completedAt := Some(now))
  }

  // The database after Finish, when nothing made it fail.
  function DecidedState(s: Authority, now: Time, op: Id, status: VerificationStatus, body: Body, code: Option<string>,
                        resultId: Id, incoming: Option<Id>): Authority
    requires op in s.verifications && s.verifications[op].commandId in s.tables.inbox
    requires incoming.Some? ==> incoming.value in s.tables.inbox
  {
    var row := s.verifications[op];
    var inbox1 := s.tables.inbox[row.commandId := CompletedRow(s.tables.inbox[row.commandId], resultId, now)];
    var inbox2 := if incoming.Some? then inbox1[incoming.value := CompletedRow(s.tables.inbox[incoming.value], resultId,
                                                                               now)] else inbox1;
    var outbox1 := s.tables.outbox[resultId := NewRow(body, Result, now, now + 24 * HOUR)];
    s.(tables := Confirm(Tables(inbox2, outbox1), row.topupId, now),
    verifications := s.verifications[op := row.(status := status, failureCode := code, updatedAt := now,
    completedAt := Some(now), version := row.version + 1)])
  }

  predicate ReadyToDecide(s: Authority, op: Id, resultId: Id, incoming: Option<Id>) {
    && Undecided(s, op) && IsProcessing(s.tables, s.verifications[op].commandId)
    && resultId !in s.tables.outbox && s.verifications[op].topupId in s.tables.outbox
    && (incoming.Some? ==> IsProcessing(s.tables, incoming.value) && incoming.value != s.verifications[op].commandId)
  }

  // CompleteInbox never fails when a decision is reached.
  lemma FinishSucceeds(s: Authority, now: Time, op: Id, status: VerificationStatus, body: Body, code: Option<string>,
                       resultId: Id, incoming: Option<Id>)
    requires ReadyToDecide(s, op, resultId, incoming)
    ensures Finish(s, now, op, s.verifications[op].commandId, status, body, code, resultId, incoming)
         == Commit(DecidedState(s, now, op, status, body, code, resultId, incoming))
  {}
}
