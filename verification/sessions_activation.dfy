// Binding a wallet and activating a session: what the decision "activated" does to identities, sessions and events.
module SessionsActivation {
  import opened Base
  import opened Contracts
  import opened Sessions
  import opened SessionsInvariant
  import opened SessionsSteps

  // Bindings are only ever added.
  ghost predicate IdentitiesGrow(s: Authority, s': Authority) {
    forall key | key in s.identities :: key in s'.identities && s'.identities[key] == s.identities[key]
  }

  lemma EnsureIdentityBinds(s: Authority, command: ActivationVerify)
    requires IdentitiesOk(s)
    ensures var (s1, walletMatch) := EnsureIdentity(s, command);
            && IdentitiesOk(s1) && IdentitiesGrow(s, s1) && s1 == s.(identities := s1.identities)
            && (walletMatch <==> BoundTo(s1, command))
  {}

  // The conflict query passing implies that neither unique index can refuse the insert or the update.
  lemma UniqueIndexesNeverRefuse(s: Authority, now: Time, command: ActivationVerify)
    requires SessionsOk(s) && command.operationId !in s.events
    ensures !ActivateSession(s, now, command).DatabaseError?
  {}

  // Who a session belongs to and when it began is fixed by its first activation.
  predicate SameFirst(before: Option<Session>, after: Session, command: ActivationVerify, now: Time) {
    match before
    case Some(session) =>
      && after.botId == session.botId && after.userId == session.userId && after.displayLabel == session.displayLabel
      && after.firstActivatedAt == session.firstActivatedAt
    case None =>
      && after.botId == command.botId && after.userId == command.userId && after.displayLabel == command.displayLabel
      && after.firstActivatedAt == now
  }

  // What a successful activation changes.
  ghost predicate Activates(s: Authority, m: Authority, command: ActivationVerify, version: nat) {
    var id, op := command.sessionId, command.operationId;
    && m == s.(sessions := m.sessions, events := m.events)
    && id in m.sessions && op in m.events && op !in s.events
    && m.sessions == s.sessions[id := m.sessions[id]] && m.events == s.events[op := m.events[op]]
    && m.events[op].sessionId == id && m.events[op].version == version == m.sessions[id].version
    && m.sessions[id].status.Active? && m.sessions[id].identity == Fingerprint(command.balanceId)
    && m.events[op].network == command.network && m.events[op].transactionId == command.transactionId
    && (m.events[op].eventType.ActivatedEvent? <==> id !in s.sessions)
    && m.sessions[id].chatId == command.chatId && m.sessions[id].network == command.network
    && m.sessions[id].transactionId == command.transactionId
    && m.sessions[id].lastActivatedAt == m.events[op].occurredAt
    && SameFirst(if id in s.sessions then Some(s.sessions[id]) else None, m.sessions[id], command,
                 m.events[op].occurredAt)
    && (if id in s.sessions then
          && s.sessions[id].identity == m.sessions[id].identity && version == s.sessions[id].version + 1
        else version == 1)
    && UniqueAgainst(s.sessions, id, m.sessions[id])
  }

  lemma ActivateSessionShape(s: Authority, now: Time, command: ActivationVerify)
    requires ActivateSession(s, now, command).Activation?
    ensures var a := ActivateSession(s, now, command); Activates(s, a.state, command, a.version)
  {}

  lemma ActivationKeepsSessions(s: Authority, m: Authority, command: ActivationVerify, version: nat)
    requires SessionsOk(s) && Activates(s, m, command, version)
    requires Fingerprint(command.balanceId) in s.identities
    ensures SessionsOk(m)
  {}

  lemma EventsGrow(s: Authority, m: Authority, command: ActivationVerify, version: nat)
    requires Activates(s, m, command, version)
    ensures EventsOf(m, command.sessionId) == EventsOf(s, command.sessionId) + {command.operationId}
    ensures command.operationId !in EventsOf(s, command.sessionId)
    ensures forall id | id != command.sessionId :: EventsOf(m, id) == EventsOf(s, id)
  {}

  lemma NoEventsYet(s: Authority, id: Id)
    requires EventsOk(s) && id !in s.sessions
    ensures EventsOf(s, id) == {}
  {
    assert forall o | o in s.events :: EventOk(s, o);
  }

  lemma ActivationCountsOneMore(s: Authority, m: Authority, command: ActivationVerify, version: nat)
    requires EventsOk(s) && Activates(s, m, command, version)
    requires command.sessionId in s.sessions ==>
               |EventsOf(s, command.sessionId)| == s.sessions[command.sessionId].version
    ensures |EventsOf(m, command.sessionId)| == version
  {
    EventsGrow(s, m, command, version);
    if command.sessionId !in s.sessions { NoEventsYet(s, command.sessionId); }
  }

  lemma ActivationKeepsVersions(s: Authority, m: Authority, command: ActivationVerify, version: nat)
    requires EventsOk(s) && VersionsOk(s) && Activates(s, m, command, version)
    ensures VersionsOk(m)
  {
    ActivationKeepsCounts(s, m, command, version);
    ActivationKeepsDistinct(s, m, command, version);
  }

  lemma ActivationKeepsCounts(s: Authority, m: Authority, command: ActivationVerify, version: nat)
    requires EventsOk(s) && Activates(s, m, command, version)
    requires forall id | id in s.sessions :: |EventsOf(s, id)| == s.sessions[id].version
    ensures forall id | id in m.sessions :: |EventsOf(m, id)| == m.sessions[id].version
  {
    EventsGrow(s, m, command, version);
    ActivationCountsOneMore(s, m, command, version);
  }

  // The new version is beyond all earlier ones of the session.
  lemma ActivationKeepsDistinct(s: Authority, m: Authority, command: ActivationVerify, version: nat)
    requires EventsOk(s) && Activates(s, m, command, version)
    requires forall a, b | a in s.events && b in s.events && s.events[a].sessionId == s.events[b].sessionId
                           && s.events[a].version == s.events[b].version :: a == b
    ensures forall a, b | a in m.events && b in m.events && m.events[a].sessionId == m.events[b].sessionId
                          && m.events[a].version == m.events[b].version :: a == b
  {}

  // `d` is the database after the verification was also marked verified.
  lemma ActivationKeepsEvents(s: Authority, m: Authority, d: Authority, command: ActivationVerify, version: nat)
    requires EventsOk(s) && SessionsOk(s) && Activates(s, m, command, version) && BoundTo(s, command)
    requires d.identities == m.identities && d.sessions == m.sessions && d.events == m.events
    requires var op := command.operationId;
             && op in s.verifications && op in d.verifications
             && d.verifications == s.verifications[op := d.verifications[op]]
             && d.verifications[op].status.Verified? && d.verifications[op].command == command
    ensures EventsOk(d)
  {}

  lemma ActivationKeepsCore(s: Authority, m: Authority, d: Authority, command: ActivationVerify, version: nat)
    requires CoreOk(s) && Activates(s, m, command, version) && BoundTo(s, command)
    requires d.identities == m.identities && d.sessions == m.sessions && d.events == m.events
    requires var op := command.operationId;
             && op in s.verifications && op in d.verifications
             && d.verifications == s.verifications[op := d.verifications[op]]
             && d.verifications[op].status.Verified? && d.verifications[op].command == command
    ensures CoreOk(d)
  {
    ActivationKeepsSessions(s, m, command, version);
    ActivationKeepsVersions(s, m, command, version);
    ActivationKeepsEvents(s, m, d, command, version);
    assert forall i :: EventsOf(d, i) == EventsOf(m, i);
  }

  // Growing identities alone keeps everything.
  lemma GrowthKeepsCore(s: Authority, s': Authority)
    requires CoreOk(s) && IdentitiesGrow(s, s') && IdentitiesOk(s') && s' == s.(identities := s'.identities)
    ensures CoreOk(s')
  {}

  // A rejection leaves the set of activated operations alone.
  lemma RejectionKeepsCore(m: Authority, d: Authority, op: Id)
    requires CoreOk(m) && op in m.verifications && m.verifications[op].status.VerificationPending?
    requires d.identities == m.identities && d.sessions == m.sessions && d.events == m.events
    requires op in d.verifications && d.verifications == m.verifications[op := d.verifications[op]]
    requires !d.verifications[op].status.Verified? && d.verifications[op].command == m.verifications[op].command
    ensures CoreOk(d)
  {
    SameDecisionsKeepCore(m, d);
  }
}
