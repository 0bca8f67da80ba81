// The bot's flow store in the form of its source: methods that issue statements on the tables inside a transaction and
// put everything back when one fails. Each is proved against the function of the same name.
module BotStore {
  import opened Base
  import opened Contracts
  import opened Messages
  import opened Bot
  import opened BotReconcile
  import opened Counting
  import Amount
  import Domain
  import Text

  datatype ConversationState = Unbound | Bound(sessionId: Id, dialog: Dialog) | BoundActive(sessionId: Id)

  // The result that completes an activation.
  datatype Outcome = Success(activated: Activated) | Failure(rejection: Rejection) {
    function OperationId(): Id {
      if Success? then activated.operationId else rejection.operationId
    }

    function Payload(): Body {
      if Success? then ActivatedBody(activated) else ActivationRejectedBody(rejection)
    }
  }

  function CompleteOutcome(s: Flow, now: Time, id: Id, outcome: Outcome, expiresAt: Time): Tx<Flow> {
    match outcome
    case Success(activated) => CompleteActivated(s, now, id, activated, expiresAt)
    case Failure(rejection) => CompleteRejected(s, now, id, rejection, expiresAt)
  }

  // Everything but the messages is read from the state before the message was registered.
  lemma PayReadsNoMessages(s: Flow, t: Tables, cfg: Settings, now: Time, id: Id, attempt: Attempt,
                           payment: PaymentConfirmed, verifyId: Id)
    ensures Pay(s.(tables := t), t, cfg, now, id, attempt, payment, verifyId)
         == Pay(s, t, cfg, now, id, attempt, payment, verifyId)
  {}

  lemma PaymentCases(s: Flow, cfg: Settings, now: Time, id: Id, payment: PaymentConfirmed, expiresAt: Time,
                     verifyId: Id)
    ensures var op, tx := payment.operationId, ApplyPayment(s, cfg, now, id, payment, expiresAt, verifyId);
            if id !in s.tables.inbox && op in s.attempts && s.attempts[op].offer.None? then tx == Rollback
            else match Receive(s, now, id, PaymentBody(payment), expiresAt, op, AwaitingPayment)
                 case Ignored(ignored) => tx == ignored
                 case Received(t, a) => tx == Pay(s.(tables := t), t, cfg, now, id, a, payment, verifyId)
  {
    var r := Receive(s, now, id, PaymentBody(payment), expiresAt, payment.operationId, AwaitingPayment);
    if r.Received? { PayReadsNoMessages(s, r.tables, cfg, now, id, r.attempt, payment, verifyId); }
  }

  class FlowStore {
    const messages: MessageTables
    var invites: map<string, Invite>
    var inactive: map<Id, Conversation>
    var attempts: map<Id, Attempt>
    var projection: map<Id, ActiveRow>

    constructor ()
      ensures Value() == EMPTY && fresh(messages)
    {
      messages := new MessageTables();
      invites, inactive, attempts, projection := map[], map[], map[], map[];
    }

    function Value(): Flow
      reads this, messages
    {
      Flow(messages.Value(), invites, inactive, attempts, projection)
    }

    method Rollback(before: Flow)
      modifies this, messages
      ensures Value() == before
    {
      messages.Restore(before.tables);
      invites, inactive, attempts, projection := before.invites, before.inactive, before.attempts, before.projection;
    }

    method CreateInvite(now: Time, id: Id, command: InviteCreate, expiresAt: Time, ttl: Time, token: string,
                        link: string, resultId: Id) returns (ok: bool)
      modifies this, messages
      ensures var tx := Bot.CreateInvite(old(Value()), now, id, command, expiresAt, ttl, token, link, resultId);
              (ok <==> tx.Commit?) && Value() == tx.After(old(Value()))
    {
      var before := Value();
      var inbox := messages.RegisterInbox(id, InviteCreateBody(command), expiresAt);
      if inbox == Collision { return false; }
      if inbox.Duplicate? {
        if inbox.completed && inbox.resultId.Some? { messages.RequeueOutbox(inbox.resultId.value, now); }
        return true;
      }
      ok := WriteInvite(now, id, command, ttl, token, link, resultId);
      if !ok { Rollback(before); }
    }

    method WriteInvite(now: Time, id: Id, command: InviteCreate, ttl: Time, token: string, link: string,
                       resultId: Id) returns (ok: bool)
      modifies this, messages
      ensures var tx := AddInvite(old(Value()), old(messages.Value()), now, id, command, ttl, token, link, resultId);
              (ok <==> tx.Commit?) && (ok ==> Value() == tx.state)
    {
      var result := InviteCreatedBody(InviteCreated(command.operationId, token, link, now + ttl));
      ok := messages.InsertOutbox(resultId, result, Result, now, now + 5 * MINUTE);
      if !ok || InviteTaken(Value(), command.operationId, token) { return false; }
      invites := invites[token := Invite(command.operationId, id, resultId, command.balanceId, InviteActive,
                                         TruncateToMicros(now + ttl), None, None)];
      ok := messages.CompleteInbox(id, resultId, now);
    }

    method FindActive(botId: int, userId: int) returns (found: Option<Id>)
      ensures found.Some? ==> found.value in projection && projection[found.value].botId == botId
                              && projection[found.value].userId == userId
      ensures found.None? <==> !InProjection(Value(), botId, userId)
    {
      if InProjection(Value(), botId, userId) {
        var id :| id in projection && projection[id].botId == botId && projection[id].userId == userId;
        return Some(id);
      }
      return None;
    }

    method FindConversation(botId: int, userId: int) returns (found: Option<Id>)
      ensures Finds(Value(), botId, userId, found) && (found.None? <==> !InInactive(Value(), botId, userId))
    {
      if InInactive(Value(), botId, userId) {
        var id :| id in inactive && inactive[id].botId == botId && inactive[id].userId == userId;
        return Some(id);
      }
      return None;
    }

    method ConsumeInvite(now: Time, botId: int, userId: int, chatId: int, displayLabel: string, token: string,
                         freshId: Id)
      returns (sessionId: Option<Id>)
      modifies this
      ensures var tx := Bot.ConsumeInvite(old(Value()), now, botId, userId, chatId, displayLabel, token, freshId);
              (sessionId.Some? <==> tx.Commit?) && Value() == tx.After(old(Value()))
      ensures sessionId.Some? ==>
                var id := sessionId.value;
                || (id in projection && projection[id].botId == botId && projection[id].userId == userId)
                || (id in inactive && inactive[id].botId == botId && inactive[id].userId == userId)
    {
      sessionId := FindActive(botId, userId);
      if sessionId.Some? { return; }
      sessionId := FindConversation(botId, userId);
      if sessionId.Some? { return; }
      if token !in invites || invites[token].status != InviteActive || invites[token].expiresAt <= now { return None; }
      var invite := invites[token];
      if freshId in inactive || botId <= 0 || userId <= 0 || chatId <= 0 || |displayLabel| > 128
         || !Text.Storable(displayLabel) { return None; }
      inactive := inactive[freshId := Conversation(botId, userId, chatId, invite.balanceId, displayLabel, NeedsWallet,
                                                   None, now, 1)];
      invites := invites[token := invite.(status := InviteConsumed, consumedAt := Some(now),
      consumedBy := Some(freshId))];
      return Some(freshId);
    }

    method State(botId: int, userId: int) returns (state: ConversationState)
      ensures match state
              case BoundActive(id) =>
                id in projection && projection[id].botId == botId && projection[id].userId == userId
              case Bound(id, dialog) =>
                !InProjection(Value(), botId, userId) && Finds(Value(), botId, userId, Some(id))
                && inactive[id].dialog == dialog
              case Unbound => !InProjection(Value(), botId, userId) && !InInactive(Value(), botId, userId)
    {
      var active := FindActive(botId, userId);
      if active.Some? { return BoundActive(active.value); }
      var found := FindConversation(botId, userId);
      if found.Some? { return Bound(found.value, inactive[found.value].dialog); }
      return Unbound;
    }

    method BeginActivation(now: Time, signedAt: Time, botId: int, userId: int, wallet: string, amount: string,
                           network: string, operationId: Id, reserveId: Id) returns (ghost found: Option<Id>, ok: bool)
      modifies this, messages
      ensures Finds(old(Value()), botId, userId, found)
      ensures var tx := Bot.BeginActivation(old(Value()), now, signedAt, found, wallet, amount, network, operationId,
                                            reserveId);
              (ok <==> tx.Commit?) && Value() == tx.After(old(Value()))
    {
      var before := Value();
      var id := FindConversation(botId, userId);
      found := id;
      if id.None? { return found, false; }
      var conversation := inactive[id.value];
      if conversation.dialog != NeedsWallet && conversation.dialog != DialogRejected { return found, false; }
      var reserve := ActivationReserve(operationId, conversation.balanceId, id.value, wallet, amount, "USDT", network);
      ok := messages.InsertOutbox(reserveId, ReserveBody(reserve), Command, now, signedAt + 2 * MINUTE);
      if !ok { return; }
      if operationId in attempts {
        Rollback(before);
        return found, false;
      }
      attempts := attempts[operationId := NewAttempt(id.value, reserveId, wallet, amount, network, now)];
      inactive := inactive[id.value := conversation.(dialog := NeedsReservation, currentAttempt := Some(operationId),
      updatedAt := now,
      version := conversation.version + 1)];
    }

    method UpdateDialog(sessionId: Id, dialog: Dialog, now: Time)
      modifies this
      ensures Value() == old(Value()).(inactive := SetDialog(old(Value()), sessionId, dialog, now))
    {
      if sessionId in inactive {
        var c := inactive[sessionId];
        inactive := inactive[sessionId := c.(dialog := dialog, updatedAt := now, version := c.version + 1)];
      }
    }

    // The statements shared by the handlers: the attempt, its dialog, its command and its message. The last read fails
    // when the conversation is gone. On failure the caller's transaction is rolled back.
    method MoveOn(now: Time, id: Id, operationId: Id, attempt': Attempt, dialog: Dialog,
                  confirm: Option<Id>) returns (ok: bool)
      modifies this, messages
      ensures var tx := Bot.MoveOn(old(Value()), old(messages.Value()), now, id, operationId, attempt', dialog,
                                   confirm);
              (ok <==> tx.Commit?) && (ok ==> Value() == tx.state)
    {
      attempts := attempts[operationId := attempt'];
      UpdateDialog(attempt'.sessionId, dialog, now);
      if confirm.Some? { messages.ConfirmOutbox(confirm.value, now); }
      ok := messages.AcknowledgeInbox(id, now);
      ok := ok && attempt'.sessionId in inactive;
    }

    // Registers a result and finds the attempt it is about.
    method Receive(now: Time, id: Id, digest: Body, expiresAt: Time, operationId: Id, expected: AttemptStatus)
      returns (attempt: Option<Attempt>, ok: bool)
      modifies this, messages
      ensures match Bot.Receive(old(Value()), now, id, digest, expiresAt, operationId, expected)
              case Ignored(tx) => attempt.None? && (ok <==> tx.Commit?) && Value() == tx.After(old(Value()))
              case Received(t, a) => attempt == Some(a) && Value() == old(Value()).(tables := t)
                                     && operationId in attempts && attempts[operationId] == a
    {
      var before := Value();
      var inbox := messages.RegisterInbox(id, digest, expiresAt);
      if inbox == Collision { return None, false; }
      if inbox.Duplicate? { return None, true; }
      if operationId !in attempts {
        Rollback(before);
        return None, false;
      }
      if attempts[operationId].status != expected {
        messages.RejectInbox(id, now);
        return None, true;
      }
      return Some(attempts[operationId]), true;
    }

    method ApplyReserved(now: Time, id: Id, result: ActivationReserved, expiresAt: Time) returns (ok: bool)
      modifies this, messages
      ensures var tx := Bot.ApplyReserved(old(Value()), now, id, result, expiresAt);
              (ok <==> tx.Commit?) && Value() == tx.After(old(Value()))
    {
      var before := Value();
      var found: Option<Attempt>;
      found, ok := Receive(now, id, ReservedBody(result), expiresAt, result.operationId, AwaitingReservation);
      if found.None? { return; }
      var attempt := found.value;
      if ReservationAccepted(result, attempt.amount, now) {
        ok := MoveOn(now, id, result.operationId, Reserve(attempt, result, now), NeedsPayment, Some(attempt.reserveId));
      } else {
        ok := false;
      }
      if !ok { Rollback(before); }
    }

    method ApplyReserveRejected(now: Time, id: Id, rejection: Rejection, expiresAt: Time) returns (ok: bool)
      modifies this, messages
      ensures var tx := Bot.ApplyReserveRejected(old(Value()), now, id, rejection, expiresAt);
              (ok <==> tx.Commit?) && Value() == tx.After(old(Value()))
    {
      var before := Value();
      var found: Option<Attempt>;
      found, ok := Receive(now, id, ReserveRejectedBody(rejection), expiresAt, rejection.operationId,
                           AwaitingReservation);
      if found.None? { return; }
      var attempt := found.value;
      ok := Text.Storable(rejection.code);
      if ok {
        ok := MoveOn(now, id, rejection.operationId, Close(attempt, AttemptRejected, Some(rejection.code), now),
                     DialogRejected,
                     Some(attempt.reserveId));
      }
      if !ok { Rollback(before); }
    }

    method SendVerification(cfg: Settings, now: Time, id: Id, attempt: Attempt, payment: PaymentConfirmed, verifyId: Id)
      returns (ok: bool)
      modifies this, messages
      ensures var tx := Pay(old(Value()), old(messages.Value()), cfg, now, id, attempt, payment, verifyId);
              (ok <==> tx.Commit?) && (ok ==> Value() == tx.state)
    {
      if attempt.sessionId !in inactive || attempt.offer.None? { return false; }
      var offer, conversation := attempt.offer.value, inactive[attempt.sessionId];
      if !PaymentAccepted(attempt, offer, payment, now) { return false; }
      var command := VerifyCommand(attempt, offer, conversation, payment.operationId, payment.transactionId,
                                   cfg.network);
      ok := messages.InsertOutbox(verifyId, VerifyBody(command), Command, now, offer.expiresAt + 30 * MINUTE);
      if !ok || TransactionTaken(Value(), payment.operationId, attempt.network, payment.transactionId) { return false; }
      ok := MoveOn(now, id, payment.operationId, Paid(attempt, verifyId, payment.transactionId, now), NeedsVerification,
                   None);
    }

    // Registers a payment and finds the attempt; the columns of the offer are read before the status is looked at.
    method ReceivePayment(now: Time, id: Id, payment: PaymentConfirmed, expiresAt: Time)
      returns (attempt: Option<Attempt>, ok: bool)
      modifies this, messages
      ensures var op, s := payment.operationId, old(Value());
              if id !in s.tables.inbox && op in s.attempts && s.attempts[op].offer.None? then
                attempt.None? && !ok && Value() == s
              else
                match Bot.Receive(s, now, id, PaymentBody(payment), expiresAt, op, AwaitingPayment)
                case Ignored(tx) => attempt.None? && (ok <==> tx.Commit?) && Value() == tx.After(s)
                case Received(t, a) => attempt == Some(a) && Value() == s.(tables := t)
    {
      var before := Value();
      var inbox := messages.RegisterInbox(id, PaymentBody(payment), expiresAt);
      if inbox == Collision { return None, false; }
      if inbox.Duplicate? { return None, true; }
      if payment.operationId !in attempts || attempts[payment.operationId].offer == None {
        Rollback(before);
        return None, false;
      }
      if attempts[payment.operationId].status != AwaitingPayment {
        messages.RejectInbox(id, now);
        return None, true;
      }
      return Some(attempts[payment.operationId]), true;
    }

    method ApplyPayment(cfg: Settings, now: Time, id: Id, payment: PaymentConfirmed, expiresAt: Time, verifyId: Id)
      returns (ok: bool)
      modifies this, messages
      ensures var tx := Bot.ApplyPayment(old(Value()), cfg, now, id, payment, expiresAt, verifyId);
              (ok <==> tx.Commit?) && Value() == tx.After(old(Value()))
    {
      PaymentCases(Value(), cfg, now, id, payment, expiresAt, verifyId);
      var before := Value();
      var found: Option<Attempt>;
      found, ok := ReceivePayment(now, id, payment, expiresAt);
      if found.None? { return; }
      ok := SendVerification(cfg, now, id, found.value, payment, verifyId);
      if !ok { Rollback(before); }
    }

    // Inserts the projection row and removes the conversation.
    method WriteActive(now: Time, id: Id, attempt: Attempt, activated: Activated) returns (ok: bool)
      modifies this, messages
      ensures var tx := Activate(old(Value()), old(messages.Value()), now, id, attempt, activated);
              (ok <==> tx.Commit?) && (ok ==> Value() == tx.state)
    {
      var sessionId := attempt.sessionId;
      if sessionId !in inactive || !ValidActivated(activated, sessionId, inactive[sessionId]) { return false; }
      var c := inactive[sessionId];
      var row := ActiveRow(c.botId, c.userId, c.chatId, Fingerprint(c.balanceId), c.displayLabel,
                           activated.authorityVersion, TruncateToMicros(activated.activatedAt.value));
      ok := UpsertProjection(sessionId, row);
      if !ok { return; }
      attempts := attempts[activated.operationId := Close(attempt, AttemptActive, attempt.failureCode, now)];
      inactive := inactive - {sessionId};
      invites := ClearConsumer(invites, sessionId);
      if attempt.verifyId.Some? { messages.ConfirmOutbox(attempt.verifyId.value, now); }
      ok := messages.AcknowledgeInbox(id, now);
    }

    method UpsertProjection(sessionId: Id, row: ActiveRow) returns (ok: bool)
      modifies this
      ensures var tx := Project(old(projection), sessionId, row);
              (ok <==> tx.Commit?) && Value() == old(Value()).(projection := tx.After(old(projection)))
    {
      if row.authorityVersion <= 0 { return false; }
      if sessionId in projection {
        if projection[sessionId].authorityVersion < row.authorityVersion {
          projection := projection[sessionId := projection[sessionId].(authorityVersion := row.authorityVersion,
          activatedAt := row.activatedAt)];
        }
        return true;
      }
      if InProjection(Value(), row.botId, row.userId) { return false; }
      projection := projection[sessionId := row];
      return true;
    }

    method CompleteActivation(now: Time, id: Id, outcome: Outcome, expiresAt: Time) returns (ok: bool)
      modifies this, messages
      ensures var tx := CompleteOutcome(old(Value()), now, id, outcome, expiresAt);
              (ok <==> tx.Commit?) && Value() == tx.After(old(Value()))
    {
      var before := Value();
      var found: Option<Attempt>;
      found, ok := Receive(now, id, outcome.Payload(), expiresAt, outcome.OperationId(), AwaitingVerification);
      if found.None? { return; }
      var attempt := found.value;
      match outcome {
        case Success(activated) => ok := WriteActive(now, id, attempt, activated);
        case Failure(rejection) =>
          ok := Text.Storable(rejection.code);
          if ok {
            ok := MoveOn(now, id, rejection.operationId, Close(attempt, AttemptRejected, Some(rejection.code), now),
                         DialogRejected,
                         attempt.verifyId);
          }
      }
      if !ok { Rollback(before); }
    }

    // The overdue attempts, least recently updated first, at most `limit` of them.
    method SelectOverdue(now: Time, limit: nat) returns (ops: seq<Id>)
      ensures ValidPass(Value(), now, limit, ops)
      ensures OldestFirst(attempts, ops, Due(Value(), now) - Elements(ops))
    {
      ops := [];
      var left := set op | op in attempts && Overdue(Value(), op, now);
      ghost var due := Due(Value(), now);
      assert left == due;
      while |ops| < limit && left != {}
        invariant |ops| <= limit && left <= attempts.Keys && Taken(attempts, due, ops, left)
        decreases left
      {
        OldestExists(attempts, left);
        var op: Id :| op in left && forall other | other in left && other != op :: Before(attempts, op, other);
        TakeOldest(attempts, due, ops, left, op);
        ops := ops + [op];
        left := left - {op};
      }
    }

    // One statement expires the batch: attempts and the dialogs of their sessions.
    method ExpireAttempts(now: Time, limit: nat) returns (ghost ops: seq<Id>)
      modifies this
      ensures ValidPass(old(Value()), now, limit, ops)
      ensures OldestFirst(old(attempts), ops, Due(old(Value()), now) - Elements(ops))
      ensures Value() == Bot.ExpireAttempts(old(Value()), ops, now)
    {
      var due := SelectOverdue(now, limit);
      ops := due;
      var i := 0;
      while i < |due|
        invariant i <= |due|
        invariant Bot.ExpireAttempts(old(Value()), due, now) == Bot.ExpireAttempts(Value(), due[i..], now)
      {
        var op := due[i];
        if Overdue(Value(), op, now) {
          var attempt := attempts[op];
          attempts := attempts[op := Close(attempt, AttemptExpired, Some("EXPIRED"), now)];
          UpdateDialog(attempt.sessionId, DialogRejected, now);
        }
        i := i + 1;
      }
    }
  }

  // ORDER BY updated_at, id
  predicate Before(attempts: map<Id, Attempt>, a: Id, b: Id) {
    a in attempts && b in attempts
    && (attempts[a].updatedAt < attempts[b].updatedAt || (attempts[a].updatedAt == attempts[b].updatedAt && a < b))
  }

  ghost predicate OldestFirst(attempts: map<Id, Attempt>, ops: seq<Id>, left: set<Id>) {
    && (forall i, j | 0 <= i < j < |ops| :: Before(attempts, ops[i], ops[j]))
    && (forall i, op | 0 <= i < |ops| && op in left :: Before(attempts, ops[i], op))
  }

  lemma OldestExists(attempts: map<Id, Attempt>, ops: set<Id>)
    requires ops != {} && ops <= attempts.Keys
    ensures exists op: Id :: op in ops && forall other | other in ops && other != op :: Before(attempts, op, other)
  {
    var notAfter := (a, b) => a == b || Before(attempts, a, b);
    FirstExists(ops, notAfter);
    var first: Id :| First(first, ops, notAfter);
    assert forall other | other in ops && other != first :: Before(attempts, first, other);
  }

  predicate Splits(whole: set<Id>, part: set<Id>, rest: set<Id>) { part <= whole && rest == whole - part }

  lemma MoveOver(whole: set<Id>, part: set<Id>, rest: set<Id>, op: Id)
    requires Splits(whole, part, rest) && op in rest
    ensures Splits(whole, part + {op}, rest - {op}) && |rest - {op}| == |rest| - 1
  {}

  // `ops` were taken from what is due, oldest first, and `left` is what remains.
  ghost predicate Taken(attempts: map<Id, Attempt>, due: set<Id>, ops: seq<Id>, left: set<Id>) {
    Distinct(ops) && Splits(due, Elements(ops), left) && |due| == |ops| + |left| && OldestFirst(attempts, ops, left)
  }

  lemma TakeOrdered(attempts: map<Id, Attempt>, ops: seq<Id>, left: set<Id>, op: Id)
    requires Distinct(ops) && OldestFirst(attempts, ops, left) && op in left && left !! Elements(ops)
    requires forall other | other in left && other != op :: Before(attempts, op, other)
    ensures Distinct(ops + [op]) && OldestFirst(attempts, ops + [op], left - {op})
  {
    assert forall i | 0 <= i < |ops| :: (ops + [op])[i] == ops[i] && ops[i] in Elements(ops);
  }

  lemma ElementsSnoc(ops: seq<Id>, op: Id)
    ensures Elements(ops + [op]) == Elements(ops) + {op}
  {}

  lemma TakeOldest(attempts: map<Id, Attempt>, due: set<Id>, ops: seq<Id>, left: set<Id>, op: Id)
    requires Taken(attempts, due, ops, left) && op in left
    requires forall other | other in left && other != op :: Before(attempts, op, other)
    ensures Taken(attempts, due, ops + [op], left - {op})
  {
    TakeOrdered(attempts, ops, left, op);
    ElementsSnoc(ops, op);
    MoveOver(due, Elements(ops), left, op);
  }

  // ---- the service ----

  function TrimLabel(value: string): (r: string)
    ensures r <= Text.TrimSpace(value) && |r| == if |Text.TrimSpace(value)| <= 128 then |Text.TrimSpace(value)| else 128
  {
    var trimmed := Text.TrimSpace(value);
    if |trimmed| > 128 then trimmed[..128] else trimmed
  }

  // strings.TrimPrefix(s, "@")
  function WithoutAt(s: string): (r: string)
    ensures r == s || "@" + r == s
  {
    if |s| > 0 && s[0] == '@' then s[1..] else s
  }

  // A token of any other length cannot be one.
  function ConsumeToken(s: Flow, now: Time, botId: int, userId: int, chatId: int, displayLabel: string, token: string,
                        sessionId: Id): Tx<Flow>
  {
    if |token| != 43 then Rollback
    else Bot.ConsumeInvite(s, now, botId, userId, chatId, TrimLabel(displayLabel), token, sessionId)
  }

  datatype Draft = Draft(minor: nat, signedAt: Time, operationId: Id, reserveId: Id, sessionId: Id)

  // A text means nothing to an active session, a wallet to a bound one, and an invite to everybody else.
  function TextTx(s: Flow, cfg: Settings, now: Time, botId: int, userId: int, chatId: int, displayLabel: string,
                  text: string, found: Option<Id>, draft: Draft): Tx<Flow>
  {
    if InProjection(s, botId, userId) then Rollback
    else if found.None? then ConsumeToken(s, now, botId, userId, chatId, displayLabel, Text.TrimSpace(text),
                                          draft.sessionId)
    else HandleWallet(s, cfg, now, draft.signedAt, found, Text.TrimSpace(text), draft.minor, draft.operationId,
                      draft.reserveId)
  }

  // Whatever a text does is one of the two steps of the machine, or nothing.
  lemma TextIsStep(s: Flow, cfg: Settings, now: Time, botId: int, userId: int, chatId: int, displayLabel: string,
                   text: string, found: Option<Id>, draft: Draft)
    ensures var s', trimmed := TextTx(s, cfg, now, botId, userId, chatId, displayLabel, text, found, draft).After(s),
                               Text.TrimSpace(text);
            || s' == s
            || s' == NextDb(s, cfg, now, Consume(botId, userId, chatId, TrimLabel(displayLabel), trimmed,
                                                 draft.sessionId))
            || s' == NextDb(s, cfg, now, SendWallet(botId, userId, found, trimmed, draft.minor, draft.signedAt,
                                                    draft.operationId, draft.reserveId))
  {}

  class Service {
    const store: FlowStore
    const cfg: Settings
    var botId: int
    var username: string

    constructor (store: FlowStore, cfg: Settings, botId: int, username: string)
      ensures this.store == store && this.cfg == cfg && this.botId == botId && this.username == WithoutAt(username)
    {
      this.store, this.cfg, this.botId, this.username := store, cfg, botId, WithoutAt(username);
    }

    method SetTelegramIdentity(botId: int, username: string)
      modifies this
      ensures this.botId == botId && this.username == WithoutAt(username)
    {
      this.botId := botId;
      this.username := WithoutAt(username);
    }

    method HandleInviteCreate(now: Time, id: Id, command: InviteCreate, expiresAt: Time, token: string,
                              resultId: Id) returns (ok: bool)
      modifies store, store.messages
      ensures var tx := Bot.HandleInviteCreate(old(store.Value()), cfg, username, now, id, command, expiresAt, token,
                                               resultId);
              (ok <==> tx.Commit?) && store.Value() == tx.After(old(store.Value()))
      ensures username == old(username)
    {
      if !Domain.ValidateInviteCreate(command) { return false; }
      var ttl := cfg.inviteTtl;
      if command.requestedTtlSeconds != 0 { ttl := command.requestedTtlSeconds * SECOND; }
      if username == "" { return false; }
      ok := store.CreateInvite(now, id, command, expiresAt, ttl, token, DeepLink(username, token), resultId);
    }

    method ConsumeInvite(now: Time, botId: int, userId: int, chatId: int, displayLabel: string, token: string,
                         freshId: Id)
      returns (ok: bool)
      modifies store
      ensures var tx := ConsumeToken(old(store.Value()), now, botId, userId, chatId, displayLabel, token, freshId);
              (ok <==> tx.Commit?) && store.Value() == tx.After(old(store.Value()))
    {
      if |token| != 43 { return false; }
      var sessionId := store.ConsumeInvite(now, botId, userId, chatId, TrimLabel(displayLabel), token, freshId);
      return sessionId.Some?;
    }

    // `found` is the conversation of the user, if there is one.
    method HandleText(now: Time, botId: int, userId: int, chatId: int, displayLabel: string, text: string, draft: Draft)
      returns (ghost found: Option<Id>)
      modifies store, store.messages
      ensures !InProjection(old(store.Value()), botId, userId) ==> Finds(old(store.Value()), botId, userId, found)
      ensures store.Value()
           == TextTx(old(store.Value()), cfg, now, botId, userId, chatId, displayLabel, text, found,
                     draft).After(old(store.Value()))
    {
      var state := store.State(botId, userId);
      var trimmed := Text.TrimSpace(text);
      match state {
        case BoundActive(_) => return None;
        case Unbound =>
          var ok := ConsumeInvite(now, botId, userId, chatId, displayLabel, trimmed, draft.sessionId);
          return None;
        case Bound(id, dialog) =>
          if dialog != NeedsWallet && dialog != DialogRejected { return Some(id); }
          if !Domain.ValidateWallet(trimmed) { return Some(id); }
          var ok;
          found, ok := store.BeginActivation(now, draft.signedAt, botId, userId, trimmed,
                                             Amount.FormatAmount(draft.minor, cfg.scale),
                                             cfg.network, draft.operationId, draft.reserveId);
      }
    }
  }
}
