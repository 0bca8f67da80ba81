// The authority's store in the form of its source: methods that issue statements on the tables inside a transaction and
// put everything back when one fails. Each is proved against the function of the same name.
module SessionsStore {
  import opened Base
  import opened Contracts
  import opened Messages
  import opened Sessions
  import opened SessionsReconcile
  import Counting
  import Domain
  import Text

  datatype ActivationResult = ActivatedAs(version: nat) | ActivationConflict | ActivationError

  class Store {
    const messages: MessageTables
    var verifications: map<Id, Verification>
    var identities: map<Fingerprint, Identity>
    var sessions: map<Id, Session>
    var events: map<Id, SessionEvent>

    constructor ()
      ensures Value() == EMPTY && fresh(messages)
    {
      messages := new MessageTables();
      verifications, identities, sessions, events := map[], map[], map[], map[];
    }

    function Value(): Authority
      reads this, messages
    {
      Authority(messages.Value(), verifications, identities, sessions, events)
    }

    method Rollback(before: Authority)
      modifies this, messages
      ensures Value() == before
    {
      messages.Restore(before.tables);
      verifications, identities, sessions, events := before.verifications, before.identities, before.sessions,
                                                     before.events;
    }

    // What every handler does with a message it has seen: publish its result again, if it has one.
    method ReplayDuplicate(r: InboxResult, now: Time)
      requires r.Duplicate?
      modifies messages
      ensures messages.Value() == Replay(old(messages.Value()), r, now)
    {
      if r.completed && r.resultId.Some? { messages.RequeueOutbox(r.resultId.value, now); }
    }

    method AcceptVerification(now: Time, id: Id, command: ActivationVerify, expiresAt: Time, topupId: Id,
                              topup: TopupVerify, topupExpiresAt: Time) returns (ok: bool)
      modifies this, messages
      ensures var tx := Sessions.AcceptVerification(old(Value()), now, id, command, expiresAt, topupId, topup,
                                                    topupExpiresAt);
              (ok <==> tx.Commit?) && Value() == tx.After(old(Value()))
    {
      var before := Value();
      var inbox := messages.RegisterInbox(id, VerifyBody(command), expiresAt);
      if inbox == Collision { return false; }
      if inbox.Duplicate? {
        ReplayDuplicate(inbox, now);
        return true;
      }
      var inserted := messages.InsertOutbox(topupId, TopupVerifyBody(topup), Command, now, topupExpiresAt);
      if !inserted || command.operationId in verifications || !Domain.StorableCommand(command) {
        Rollback(before);
        return false;
      }
      verifications := verifications[command.operationId := NewVerification(command, id, topupId, now)];
      return true;
    }

    method EnsureIdentity(command: ActivationVerify) returns (walletMatch: bool)
      modifies this
      ensures (Value(), walletMatch) == Sessions.EnsureIdentity(old(Value()), command)
    {
      var key := Fingerprint(command.balanceId);
      if key !in identities {
        identities := identities[key :=
        Identity(command.balanceId, command.senderWallet, Fingerprint(command.senderWallet), command.network)];
        return true;
      }
      var stored := identities[key];
      if stored.network != command.network
         || stored.walletFingerprint != Fingerprint(command.senderWallet) { return false; }
      return stored.wallet == command.senderWallet;
    }

    method ActivateSession(now: Time, command: ActivationVerify) returns (r: ActivationResult)
      modifies this
      ensures match Sessions.ActivateSession(old(Value()), now, command)
              case Activation(s', version) => r == ActivatedAs(version) && Value() == s'
              case Conflict => r == ActivationConflict && Value() == old(Value())
              case DatabaseError => r == ActivationError && Value() == old(Value())
    {
      var id, identity := command.sessionId, Fingerprint(command.balanceId);
      if exists other | other in sessions :: other != id
                                             && Conflicts(sessions[other], command) { return ActivationConflict; }
      var version: nat := 1;
      var session := Session(identity, command.botId, command.userId, command.chatId, command.displayLabel, Active,
                             command.network, command.transactionId, now, now, version);
      var eventType := ActivatedEvent;
      if id in sessions {
        var current := sessions[id];
        if current.identity != identity || current.status != Active { return ActivationConflict; }
        eventType := ReactivatedEvent;
        version := current.version + 1;
        session := current.(chatId := command.chatId, network := command.network,
        transactionId := command.transactionId,
        lastActivatedAt := now, version := version);
      }
      if !UniqueAgainst(sessions, id, session) || command.operationId in events { return ActivationError; }
      sessions := sessions[id := session];
      events := events[command.operationId := SessionEvent(id, eventType, version, now, command.network,
                                                           command.transactionId)];
      return ActivatedAs(version);
    }

    method FinishVerification(now: Time, operationId: Id, status: VerificationStatus, code: Option<string>)
      requires operationId in verifications
      modifies this
      ensures Value() == old(Value()).(verifications := old(verifications)[operationId :=
                         old(verifications)[operationId].(status := status, failureCode := code, updatedAt := now,
                         completedAt := Some(now),
                         version := old(verifications)[operationId].version + 1)])
    {
      var row := verifications[operationId];
      verifications := verifications[operationId :=
      row.(status := status, failureCode := code, updatedAt := now, completedAt := Some(now),
      version := row.version + 1)];
    }

    // The command, and the message that decided it, if one did.
    method CompleteMessages(now: Time, commandId: Id, resultId: Id, incoming: Option<Id>) returns (ok: bool)
      modifies messages
      ensures var tx := CompleteBoth(old(messages.Value()), now, commandId, resultId, incoming);
              (ok <==> tx.Commit?) && (ok ==> messages.Value() == tx.state)
    {
      ok := messages.CompleteInbox(commandId, resultId, now);
      if ok && incoming.Some? { ok := messages.CompleteInbox(incoming.value, resultId, now); }
    }

    method SettleMessages(now: Time, commandId: Id, topupId: Id, resultId: Id, incoming: Option<Id>)
      returns (ok: bool)
      modifies messages
      ensures var tx := Settle(old(messages.Value()), now, commandId, topupId, resultId, incoming);
              (ok <==> tx.Commit?) && (ok ==> messages.Value() == tx.state)
    {
      ok := CompleteMessages(now, commandId, resultId, incoming);
      if ok { messages.ConfirmOutbox(topupId, now); }
    }

    // The statements shared by every decision. On failure the caller's transaction is rolled back.
    method Decide(now: Time, operationId: Id, commandId: Id, status: VerificationStatus, body: Body,
                  code: Option<string>, resultId: Id, incoming: Option<Id>) returns (ok: bool)
      requires operationId in verifications
      modifies this, messages
      ensures var tx := Finish(old(Value()), now, operationId, commandId, status, body, code, resultId, incoming);
              (ok <==> tx.Commit?) && (ok ==> Value() == tx.state)
    {
      ok := messages.InsertOutbox(resultId, body, Result, now, now + 24 * HOUR);
      if !ok { return; }
      FinishVerification(now, operationId, status, code);
      ok := SettleMessages(now, commandId, verifications[operationId].topupId, resultId, incoming);
    }

    method CompleteRejected(now: Time, operationId: Id, code: string, retryable: bool, resultId: Id,
                            incoming: Id) returns (ok: bool)
      requires operationId in verifications
      modifies this, messages
      ensures var tx := FinishRejected(old(Value()), now, operationId, code, retryable, resultId, incoming);
              (ok <==> tx.Commit?) && (ok ==> Value() == tx.state)
    {
      var row := verifications[operationId];
      var body := ActivationRejectedBody(Rejection(row.command.operationId, code, retryable));
      ok := Decide(now, operationId, row.commandId, Rejected, body, if code == "" then None else Some(code), resultId,
                   Some(incoming));
    }

    method DecideTopup(now: Time, id: Id, verified: TopupVerified, resultId: Id) returns (ok: bool)
      requires verified.operationId in verifications
      modifies this, messages
      ensures var tx := DecideVerified(old(Value()), now, id, verified, resultId);
              (ok <==> tx.Commit?) && (ok ==> Value() == tx.state)
    {
      var op := verified.operationId;
      var row := verifications[op];
      if !FactsAccepted(verified, row.command, now) {
        ok := CompleteRejected(now, op, "CONTRACT_VIOLATION", false, resultId, id);
        return;
      }
      var walletMatch := EnsureIdentity(row.command);
      if !walletMatch {
        ok := CompleteRejected(now, op, "WALLET_MISMATCH", false, resultId, id);
        return;
      }
      var activation := ActivateSession(now, row.command);
      match activation {
        case ActivationError => return false;
        case ActivationConflict => ok := CompleteRejected(now, op, "CONFLICT", false, resultId, id);
        case ActivatedAs(version) =>
          var body := ActivatedBody(Activated(row.command.operationId, row.command.sessionId, row.command.balanceId,
                                              "ACTIVE", version, Some(now)));
          ok := Decide(now, op, row.commandId, Verified, body, None, resultId, Some(id));
      }
    }

    method ApplyTopupVerified(now: Time, id: Id, verified: TopupVerified, expiresAt: Time,
                              resultId: Id) returns (ok: bool)
      modifies this, messages
      ensures var tx := Sessions.ApplyTopupVerified(old(Value()), now, id, verified, expiresAt, resultId);
              (ok <==> tx.Commit?) && Value() == tx.After(old(Value()))
    {
      var before := Value();
      var inbox := messages.RegisterInbox(id, TopupVerifiedBody(verified), expiresAt);
      if inbox == Collision { return false; }
      if inbox.Duplicate? {
        ReplayDuplicate(inbox, now);
        return true;
      }
      if verified.operationId !in verifications {
        Rollback(before);
        return false;
      }
      if verifications[verified.operationId].status != VerificationPending {
        messages.RejectInbox(id, now);
        return true;
      }
      ok := DecideTopup(now, id, verified, resultId);
      if !ok { Rollback(before); }
    }

    method ApplyTopupRejected(now: Time, id: Id, rejection: Rejection, expiresAt: Time, resultId: Id) returns (ok: bool)
      modifies this, messages
      ensures var tx := Sessions.ApplyTopupRejected(old(Value()), now, id, rejection, expiresAt, resultId);
              (ok <==> tx.Commit?) && Value() == tx.After(old(Value()))
    {
      var before := Value();
      var inbox := messages.RegisterInbox(id, TopupRejectedBody(rejection), expiresAt);
      if inbox == Collision { return false; }
      if inbox.Duplicate? {
        ReplayDuplicate(inbox, now);
        return true;
      }
      if rejection.operationId !in verifications {
        Rollback(before);
        return false;
      }
      if verifications[rejection.operationId].status != VerificationPending {
        messages.RejectInbox(id, now);
        return true;
      }
      ok := Text.Storable(rejection.code);
      if ok { ok := CompleteRejected(now, rejection.operationId, rejection.code, rejection.retryable, resultId, id); }
      if !ok { Rollback(before); }
    }

    // The rows of the reconciliation query, oldest first, at most `limit` of them.
    method PendingRetries(now: Time, limit: nat) returns (items: seq<PendingRetry>)
      ensures |items| == Min(limit, |Due(Value(), now)|)
      ensures CurrentItems(Value(), now, items)
      ensures OldestFirst(verifications, items, Due(Value(), now) - Operations(items))
    {
      items := [];
      var left := set op | op in verifications && NeedsRetry(Value(), op, now);
      assert left == Due(Value(), now);
      while |items| < limit && left != {}
        invariant |items| <= limit
        invariant Taken(Value(), now, items, left)
        invariant OldestFirst(verifications, items, left)
        decreases left
      {
        OldestExists(verifications, left);
        var op: Id :| op in left && forall other | other in left && other != op :: Before(verifications, op, other);
        TakeOldest(Value(), now, items, left, op);
        items := items + [RetryItem(Value(), op)];
        left := left - {op};
      }
    }

    method ReplaceTopupCommand(now: Time, item: PendingRetry, newId: Id, expiresAt: Time) returns (ok: bool)
      modifies this, messages
      ensures var tx := Sessions.ReplaceTopupCommand(old(Value()), now, item, newId, expiresAt);
              (ok <==> tx.Commit?) && Value() == tx.After(old(Value()))
    {
      if item.operationId !in verifications { return false; }
      var row := verifications[item.operationId];
      if row.status != VerificationPending || row.topupId != item.topupId { return true; }
      ok := messages.InsertOutbox(newId, TopupVerifyBody(item.facts), Command, now, expiresAt);
      if ok {
        verifications := verifications[item.operationId := row.(topupId := newId, updatedAt := now,
        version := row.version + 1)];
      }
    }

    method ExpireVerification(now: Time, item: PendingRetry, resultId: Id) returns (ok: bool)
      modifies this, messages
      ensures var tx := Sessions.ExpireVerification(old(Value()), now, item, resultId);
              (ok <==> tx.Commit?) && Value() == tx.After(old(Value()))
    {
      var before := Value();
      if item.operationId !in verifications { return false; }
      var row := verifications[item.operationId];
      if row.status != VerificationPending || row.topupId != item.topupId { return true; }
      var body := ActivationRejectedBody(Rejection(item.operationId, "EXPIRED", false));
      ok := Decide(now, item.operationId, item.commandId, Expired, body, Some("EXPIRED"), resultId, None);
      if !ok { Rollback(before); }
    }
  }

  // ORDER BY updated_at, id
  predicate Before(verifications: map<Id, Verification>, a: Id, b: Id) {
    a in verifications && b in verifications
    && (verifications[a].updatedAt < verifications[b].updatedAt
        || (verifications[a].updatedAt == verifications[b].updatedAt && a < b))
  }

  ghost predicate OldestFirst(verifications: map<Id, Verification>, items: seq<PendingRetry>, left: set<Id>) {
    && (forall i, j | 0 <= i < j < |items| :: Before(verifications, items[i].operationId, items[j].operationId))
    && (forall i, op | 0 <= i < |items| && op in left :: Before(verifications, items[i].operationId, op))
  }

  // `items` were taken from what is due and `left` is what remains.
  ghost predicate Taken(s: Authority, now: Time, items: seq<PendingRetry>, left: set<Id>) {
    && CurrentItems(s, now, items) && left <= Due(s, now)
    && left == Due(s, now) - Operations(items) && |Due(s, now)| == |items| + |left|
  }

  lemma TakeOldest(s: Authority, now: Time, items: seq<PendingRetry>, left: set<Id>, op: Id)
    requires Taken(s, now, items, left) && OldestFirst(s.verifications, items, left) && op in left
    requires forall other | other in left && other != op :: Before(s.verifications, op, other)
    ensures Taken(s, now, items + [RetryItem(s, op)], left - {op})
    ensures OldestFirst(s.verifications, items + [RetryItem(s, op)], left - {op})
  {
    OperationsSnoc(items, RetryItem(s, op));
    TakeCurrent(s, now, items, left, op);
    TakeOrdered(s.verifications, items, left, RetryItem(s, op));
  }

  lemma TakeCurrent(s: Authority, now: Time, items: seq<PendingRetry>, left: set<Id>, op: Id)
    requires CurrentItems(s, now, items) && left == Due(s, now) - Operations(items) && op in left
    ensures CurrentItems(s, now, items + [RetryItem(s, op)])
  {}

  lemma TakeOrdered(verifications: map<Id, Verification>, items: seq<PendingRetry>, left: set<Id>, item: PendingRetry)
    requires OldestFirst(verifications, items, left) && item.operationId in left
    requires forall other | other in left && other != item.operationId :: Before(verifications, item.operationId, other)
    ensures OldestFirst(verifications, items + [item], left - {item.operationId})
  {}

  lemma OldestExists(verifications: map<Id, Verification>, ops: set<Id>)
    requires ops != {} && ops <= verifications.Keys
    ensures exists op: Id :: op in ops && forall other | other in ops && other != op :: Before(verifications, op, other)
  {
    var notAfter := (a, b) => a == b || Before(verifications, a, b);
    Counting.FirstExists(ops, notAfter);
    var first: Id :| Counting.First(first, ops, notAfter);
    assert forall other | other in ops && other != first :: Before(verifications, first, other);
  }

  lemma OperationsSnoc(items: seq<PendingRetry>, item: PendingRetry)
    ensures Operations(items + [item]) == Operations(items) + {item.operationId}
  {
    var all := items + [item];
    assert all[|items|] == item;
    assert forall i | 0 <= i < |items| :: all[i] == items[i];
  }

  // The reconciler of the service.
  class Service {
    const store: Store
    const network: string

    constructor (store: Store, network: string)
      ensures this.store == store && this.network == network
    {
      this.store, this.network := store, network;
    }

    method HandleActivationVerify(now: Time, id: Id, command: ActivationVerify, expiresAt: Time,
                                  topupId: Id) returns (ok: bool)
      modifies store, store.messages
      ensures var tx := HandleVerify(old(store.Value()), network, now, id, command, expiresAt, topupId);
              (ok <==> tx.Commit?) && store.Value() == tx.After(old(store.Value()))
    {
      if !Domain.ValidateActivation(command, network, now) { return false; }
      ok := RequestTopup(now, id, command, expiresAt, topupId);
    }

    // The top-up command is signed for five minutes, or until the verify command expires.
    method RequestTopup(now: Time, id: Id, command: ActivationVerify, expiresAt: Time, topupId: Id) returns (ok: bool)
      modifies store, store.messages
      ensures var topupExpiresAt := Min(now + 5 * MINUTE, expiresAt);
              var tx := if topupExpiresAt <= now then Rollback
                        else Sessions.AcceptVerification(old(store.Value()), now, id, command, expiresAt, topupId,
                                                         FactsOf(command).(asset := command.asset), topupExpiresAt);
              (ok <==> tx.Commit?) && store.Value() == tx.After(old(store.Value()))
    {
      var topupExpiresAt := now + 5 * MINUTE;
      if expiresAt < topupExpiresAt { topupExpiresAt := expiresAt; }
      if topupExpiresAt <= now { return false; }
      var topup := TopupVerify(command.operationId, command.transactionId, command.reservationId, command.senderWallet,
                               command.receiverWallet, command.amount, command.asset, command.network);
      ok := store.AcceptVerification(now, id, command, expiresAt, topupId, topup, topupExpiresAt);
    }

    // One item, at its turn: expired, or given a new command that is signed at most five minutes ahead.
    method TakeTurn(now: Time, item: PendingRetry, turn: Turn) returns (ok: bool)
      modifies store, store.messages
      ensures var tx := ReconcileItem(old(store.Value()), turn.at, now, item, turn.freshId);
              (ok <==> tx.Commit?) && store.Value() == tx.After(old(store.Value()))
    {
      if item.offerExpiresAt <= now {
        ok := store.ExpireVerification(turn.at, item, turn.freshId);
        return;
      }
      var expires := now + 5 * MINUTE;
      if item.offerExpiresAt < expires { expires := item.offerExpiresAt; }
      if expires <= turn.at { return false; }
      ok := store.ReplaceTopupCommand(turn.at, item, turn.freshId, expires);
    }

    // One pass: what is due is read, then the clock, then each item has its turn; the first error ends it.
    method ReconcileOnce(readAt: Time, now: Time, limit: nat, turns: seq<Turn>)
      returns (ghost items: seq<PendingRetry>, ok: bool)
      requires |turns| >= limit
      modifies store, store.messages
      ensures |items| == Min(limit, |Due(old(store.Value()), readAt)|)
      ensures CurrentItems(old(store.Value()), readAt, items)
      ensures PassResult(store.Value(), ok) == RunItems(old(store.Value()), now, items, turns)
    {
      var read := store.PendingRetries(readAt, limit);
      items := read;
      ok := HandleItems(now, read, turns);
    }

    method HandleItems(now: Time, items: seq<PendingRetry>, turns: seq<Turn>) returns (ok: bool)
      requires |turns| >= |items|
      modifies store, store.messages
      ensures PassResult(store.Value(), ok) == RunItems(old(store.Value()), now, items, turns)
    {
      var i := 0;
      while i < |items|
        invariant i <= |items| <= |turns|
        invariant RunItems(old(store.Value()), now, items, turns)
               == RunItems(store.Value(), now, items[i..], turns[i..])
      {
        assert items[i..][0] == items[i] && turns[i..][0] == turns[i];
        assert items[i..][1..] == items[i + 1..] && turns[i..][1..] == turns[i + 1..];
        ok := TakeTurn(now, items[i], turns[i]);
        if !ok { return; }
        i := i + 1;
      }
      return true;
    }
  }
}
