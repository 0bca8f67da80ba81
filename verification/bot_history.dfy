// What no step of the bot ever takes back.
module BotHistory {
  import opened Base
  import opened Messages
  import opened Bot
  import opened BotInvariant

  // The terms of an attempt are fixed, its offer and its command are set once, a closed attempt is final.
  predicate AttemptContinues(a: Attempt, a': Attempt) {
    && a'.sessionId == a.sessionId && a'.reserveId == a.reserveId && a'.createdAt == a.createdAt
    && a'.senderWallet == a.senderWallet && a'.amount == a.amount && a'.network == a.network
    && (a.offer.Some? ==> a'.offer == a.offer)
    && (a.verifyId.Some? ==> a'.verifyId == a.verifyId && a'.transactionId == a.transactionId)
    && (!Open(a.status) ==> a' == a)
  }

  ghost predicate AttemptsContinue(s: Flow, s': Flow) {
    forall op | op in s.attempts :: op in s'.attempts && AttemptContinues(s.attempts[op], s'.attempts[op])
  }

  predicate SameOwner(c: Conversation, c': Conversation) {
    && c'.botId == c.botId && c'.userId == c.userId && c'.chatId == c.chatId
    && c'.balanceId == c.balanceId && c'.displayLabel == c.displayLabel
  }

  predicate Projects(row: ActiveRow, c: Conversation) {
    row.botId == c.botId && row.userId == c.userId && row.chatId == c.chatId && row.balance == Fingerprint(c.balanceId)
  }

  // A conversation stays one, or becomes a projection row of the same user and balance; a projection row stays.
  predicate SessionContinues(s: Flow, s': Flow, id: Id) {
    && (id in s.inactive ==>
          if id in s'.inactive then SameOwner(s.inactive[id], s'.inactive[id]) && id !in s'.projection
          else id in s'.projection && Projects(s'.projection[id], s.inactive[id]))
    && (id in s.projection ==> id !in s'.inactive && id in s'.projection && s'.projection[id] == s.projection[id])
  }

  ghost predicate SessionsContinue(s: Flow, s': Flow) {
    forall id | id in s.inactive || id in s.projection :: SessionContinues(s, s', id)
  }

  // A consumed invite stays consumed, and the session it names is never another one.
  predicate InviteContinues(i: Invite, i': Invite) {
    && i'.operationId == i.operationId && i'.commandId == i.commandId && i'.resultId == i.resultId
    && i'.balanceId == i.balanceId && i'.expiresAt == i.expiresAt
    && (i.status.InviteConsumed? ==> i'.status.InviteConsumed?
                                     && (i'.consumedBy == i.consumedBy || i'.consumedBy.None?))
  }

  ghost predicate InvitesContinue(s: Flow, s': Flow) {
    forall token | token in s.invites :: token in s'.invites && InviteContinues(s.invites[token], s'.invites[token])
  }

  ghost predicate Continues(s: Flow, s': Flow) {
    && Evolves(s.tables.outbox, s'.tables.outbox) && InboxContinues(s.tables.inbox, s'.tables.inbox)
    && AttemptsContinue(s, s') && SessionsContinue(s, s') && InvitesContinue(s, s')
  }

  lemma ContinuesReflexive(s: Flow)
    requires ConversationsOk(s)
    ensures Continues(s, s)
  {}

  lemma ContinuesTransitive(a: Flow, b: Flow, c: Flow)
    requires Continues(a, b) && Continues(b, c)
    ensures Continues(a, c)
  {}
}
