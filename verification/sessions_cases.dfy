// What each transaction of the authority comes to, case by case.
module SessionsCases {
  import opened Base
  import opened Contracts
  import opened Messages
  import opened Sessions
  import opened SessionsInvariant

  // A new command, written.
  function Written(s: Authority, t: Tables, now: Time, id: Id, command: ActivationVerify, topupId: Id): Authority {
    s.(tables := t, verifications := s.verifications[command.operationId := NewVerification(command, id, topupId, now)])
  }

  lemma AcceptCases(s: Authority, now: Time, id: Id, command: ActivationVerify, expiresAt: Time, topupId: Id,
                    topup: TopupVerify, topupExpiresAt: Time)
    ensures var (t, r) := Register(s.tables, id, VerifyBody(command), expiresAt);
            var s' := AcceptVerification(s, now, id, command, expiresAt, topupId, topup, topupExpiresAt).After(s);
            match r
            case Collision => s' == s
            case Duplicate(_, _) => s' == s.(tables := Replay(s.tables, r, now))
            case Accepted =>
              var inserted := Insert(t, topupId, TopupVerifyBody(topup), Command, now, topupExpiresAt);
              || s' == s
              || (inserted.Commit? && command.operationId !in s.verifications
                  && s' == Written(s, inserted.state, now, id, command, topupId))
  {}

  lemma TopupVerifiedCases(s: Authority, now: Time, id: Id, verified: TopupVerified, expiresAt: Time, resultId: Id)
    ensures var (t, r) := Register(s.tables, id, TopupVerifiedBody(verified), expiresAt);
            var s' := ApplyTopupVerified(s, now, id, verified, expiresAt, resultId).After(s);
            if id in s.tables.inbox then s' == if r.Duplicate? then s.(tables := Replay(s.tables, r, now)) else s
            else if Undecided(s, verified.operationId) then
              s' == DecideVerified(s.(tables := t), now, id, verified, resultId).After(s)
            else s' == s || s' == s.(tables := Reject(t, id, now))
  {}

  lemma TopupRejectedCases(s: Authority, now: Time, id: Id, rejection: Rejection, expiresAt: Time, resultId: Id)
    ensures var (t, r) := Register(s.tables, id, TopupRejectedBody(rejection), expiresAt);
            var s' := ApplyTopupRejected(s, now, id, rejection, expiresAt, resultId).After(s);
            if id in s.tables.inbox then s' == if r.Duplicate? then s.(tables := Replay(s.tables, r, now)) else s
            else if Undecided(s, rejection.operationId) then
              || s' == s
              || s' == FinishRejected(s.(tables := t), now, rejection.operationId, rejection.code, rejection.retryable,
                                      resultId, id).After(s)
            else s' == s || s' == s.(tables := Reject(t, id, now))
  {}
}
