// Runs made of the steps of the scenario: a session that becomes active, and each way in which a promise is broken.
module ScenarioRuns {
  import opened Base
  import opened Contracts
  import opened Messages
  import opened Scenario
  import opened System
  import B = Bot
  import BR = BotRuns
  import BT = BotTheorems
  import SystemTheorems
  import S = Sessions
  import SI = SessionsInvariant
  import SR = SessionsRuns
  import ST = SessionsTheorems
  import Amount
  import Domain
  import Text

  const CFG: Settings := Settings(SR.Settings("N", LEASE), BOT)

  function BotAt(b: B.Flow): BR.World { BR.World(b, 0, map["t" := 5]) }

  const WIRE: Envelope := Envelope(103, VerifyBody(VERIFY), HOUR + 30 * MINUTE)

  const W1: World := START.(bot := BR.World(BOT1, 0, map[]))
  const W2: World := START.(bot := BotAt(BOT2))
  const W3: World := START.(bot := BotAt(BOT3))
  const W4: World := START.(bot := BotAt(BOT4))
  const W5: World := START.(bot := BotAt(BOT5))
  const W6: World := World(SR.START, BotAt(BOT6), {WIRE})
  const W7: World := World(SR.World(AUTHORITY1, 0, {}), BotAt(BOT6), {WIRE})
  const W8: World := World(SR.World(AUTHORITY2, 0, {}), BotAt(BOT6), {WIRE})

  function BotMove(step: B.Step): Move { AtBot(BR.Move(0, step)) }

  function SessionsMove(step: S.Step): Move { AtSessions(SR.Move(0, step)) }

  ghost predicate Leads(w: World, move: Move, w': World) {
    Enabled(w, move, CFG) && Next(w, move, CFG) == w'
  }

  // A run may be extended by one more step at its end.
  lemma {:induction false} Extend(w: World, moves: seq<Move>, middle: World, move: Move, w': World)
    requires EnabledRun(w, moves, CFG) && Run(w, moves, CFG) == middle && Leads(middle, move, w')
    ensures EnabledRun(w, moves + [move], CFG) && Run(w, moves + [move], CFG) == w'
    decreases |moves|
  {
    if moves == [] {
      assert [move][1..] == [];
    } else {
      Extend(Next(w, moves[0], CFG), moves[1..], middle, move, w');
      assert (moves + [move])[1..] == moves[1..] + [move];
    }
  }

  lemma InviteSteps()
    ensures Leads(START, BotMove(STEP0), W1) && Leads(W1, BotMove(STEP1), W2)
  {
    InviteIsMade();
    InviteIsConsumed();
    assert W1.bot.binding["t" := 5] == map["t" := 5];
  }

  lemma BeginStep()
    ensures Leads(W2, BotMove(STEP2), W3)
  {
    AttemptIsBegun();
  }

  lemma OfferStep()
    ensures Leads(W3, BotMove(STEP3), W4)
  {
    OfferIsTaken();
  }

  lemma PaymentStep()
    ensures Leads(W4, BotMove(STEP4), W5)
  {
    PaymentIsTaken();
  }

  lemma ClaimStep()
    ensures Leads(W5, BotMove(STEP5), W6)
  {
    CommandIsClaimed();
    assert Claimable(SENT, 0);
    assert SentBy(BOT5.tables.outbox, ClaimBatch({103}), 0) == {WIRE};
  }

  // A step of the authority that sends nothing.
  lemma AuthorityLeads(w: World, step: S.Step, db: S.Authority)
    requires w.sessions.now == 0 && w.bot.now == 0 && SR.Enabled(w.sessions, SR.Move(0, step), CFG.sessions)
    requires Delivered(w, SessionsMove(step)) && !step.Publish? && !step.ReadPending?
    requires S.StepTx(w.sessions.db, "N", 0, step) == Commit(db)
    ensures Leads(w, SessionsMove(step), w.(sessions := SR.World(db, 0, w.sessions.seen)))
  {}

  lemma CheckStep()
    ensures Leads(W6, SessionsMove(CHECK), W7)
  {
    CommandIsAccepted();
    AuthorityLeads(W6, CHECK, AUTHORITY1);
  }

  lemma ConfirmStep()
    ensures Leads(W7, SessionsMove(CONFIRM), W8)
  {
    ConfirmationIsAccepted();
    AuthorityLeads(W7, CONFIRM, AUTHORITY2);
  }

  ghost predicate Reaches(moves: seq<Move>, w: World) {
    EnabledRun(START, moves, CFG) && Run(START, moves, CFG) == w
  }

  lemma Reach(moves: seq<Move>, w: World, move: Move, w': World)
    requires Reaches(moves, w) && Leads(w, move, w')
    ensures Reaches(moves + [move], w')
  {
    Extend(START, moves, w, move, w');
  }

  const PREPARED: seq<Move> := [BotMove(STEP0), BotMove(STEP1), BotMove(STEP2)]
  const COMMANDED: seq<Move> := PREPARED + [BotMove(STEP3)] + [BotMove(STEP4)] + [BotMove(STEP5)]
  const VERIFIED_RUN: seq<Move> := COMMANDED + [SessionsMove(CHECK)] + [SessionsMove(CONFIRM)]

  lemma OrderIsAnswered()
    ensures Reaches([BotMove(STEP0)], W1)
  {
    InviteSteps();
    Reach([], START, BotMove(STEP0), W1);
    assert [] + [BotMove(STEP0)] == [BotMove(STEP0)];
  }

  lemma UserIsBound()
    ensures Reaches([BotMove(STEP0), BotMove(STEP1)], W2)
  {
    OrderIsAnswered();
    InviteSteps();
    Reach([BotMove(STEP0)], W1, BotMove(STEP1), W2);
    assert [BotMove(STEP0)] + [BotMove(STEP1)] == [BotMove(STEP0), BotMove(STEP1)];
  }

  lemma AttemptIsPrepared()
    ensures Reaches(PREPARED, W3)
  {
    UserIsBound();
    BeginStep();
    Reach([BotMove(STEP0), BotMove(STEP1)], W2, BotMove(STEP2), W3);
    assert [BotMove(STEP0), BotMove(STEP1)] + [BotMove(STEP2)] == PREPARED;
  }

  lemma CommandIsSent()
    ensures Reaches(COMMANDED, W6)
  {
    AttemptIsPrepared();
    OfferStep();
    PaymentStep();
    ClaimStep();
    Reach(PREPARED, W3, BotMove(STEP3), W4);
    Reach(PREPARED + [BotMove(STEP3)], W4, BotMove(STEP4), W5);
    Reach(PREPARED + [BotMove(STEP3)] + [BotMove(STEP4)], W5, BotMove(STEP5), W6);
  }

  // An activation is possible: the authority verifies the operation.
  lemma OperationIsVerified()
    ensures Reaches(VERIFIED_RUN, W8)
  {
    CommandIsSent();
    CheckStep();
    ConfirmStep();
    Reach(COMMANDED, W6, SessionsMove(CHECK), W7);
    Reach(COMMANDED + [SessionsMove(CHECK)], W7, SessionsMove(CONFIRM), W8);
  }

  // ---- broken promises ----

  const AGAIN: B.Step := B.DeliverInviteCreate(7, ORDER, HOUR, "bot", "u", 107)

  lemma OrderIsKnown()
    ensures B.StepTx(BOT1, BOT, 0, AGAIN) == Rollback
  {
    assert BOT1.invites["t"].operationId == ORDER.operationId;
    assert B.InviteTaken(BOT1, ORDER.operationId, "u");
  }

  // A repeated order under a new message id gets no answer.
  lemma RepeatedOperationIsRefused()
    ensures Reaches([BotMove(STEP0)], W1) && B.StepTx(W1.bot.db, BOT, 0, AGAIN) == Rollback
  {
    OrderIsAnswered();
    OrderIsKnown();
  }

  const AFTER_ANSWER: Move := AtBot(BR.Move(5 * MINUTE, B.Publish(ExpireDue)))

  // The answer of an order that is repeated five minutes later is dead: the repeat is handled and changes nothing,
  // and the answer is never sent again, although the invite lives for an hour. Before the bot knows its name a repeat
  // is refused at once.
  lemma RepeatedOrderIsNotAnswered()
    ensures var w := Next(W1, AFTER_ANSWER, CFG);
            && Reaches([BotMove(STEP0)] + [AFTER_ANSWER], w)
            && B.StepTx(w.bot.db, BOT, 5 * MINUTE, STEP0.(resultId := 108)) == Commit(w.bot.db)
            && 101 in w.bot.db.tables.outbox && (forall t :: !Claimable(w.bot.db.tables.outbox[101], t))
            && w.bot.db.invites["t"].status.InviteActive? && 5 * MINUTE < w.bot.db.invites["t"].expiresAt
    ensures B.StepTx(W1.bot.db, BOT, 0, STEP0.(username := "")) == Rollback
  {
    OrderIsAnswered();
    var w := Next(W1, AFTER_ANSWER, CFG);
    Reach([BotMove(STEP0)], W1, AFTER_ANSWER, w);
    assert w.bot.db.tables.outbox[101].status.Dead?;
  }

  const AGAIN_LATE: Move := AtSessions(SR.Move(HOUR, S.DeliverVerify(103, VERIFY, HOUR + 30 * MINUTE, 205)))

  // From the end of the offer on a repeated verify command is refused, although it is on the wire for half an hour more
  // and the result, which the bot awaits, is stored for a day.
  lemma RepeatedCommandIsRefused()
    ensures Reaches(VERIFIED_RUN, W8) && Enabled(W8, AGAIN_LATE, CFG)
    ensures S.StepTx(W8.sessions.db, "N", HOUR, AGAIN_LATE.atSessions.step) == Rollback
    ensures W8.sessions.db.tables.inbox[103].resultId == Some(202)
            && HOUR < W8.sessions.db.tables.outbox[202].expiresAt
            && W8.bot.db.attempts[20].status.AwaitingVerification?
  {
    OperationIsVerified();
  }

  const LATE_WALLET: B.Step := STEP2.(signedAt := MICROSECOND)
  const DEADLINE: Move := AtBot(BR.Move(2 * MINUTE, B.Expire([20])))

  // A reserve command that is signed a microsecond after the attempt began is sent once more when
  // the attempt has expired.
  lemma ReserveCommandOutlives()
    ensures var w := Next(W2, BotMove(LATE_WALLET), CFG);
            var w' := Next(w, DEADLINE, CFG);
            && Reaches([BotMove(STEP0), BotMove(STEP1)] + [BotMove(LATE_WALLET)] + [DEADLINE], w')
            && 20 in w'.bot.db.attempts && w'.bot.db.attempts[20].status.AttemptExpired?
            && 102 in w'.bot.db.tables.outbox && Claimable(w'.bot.db.tables.outbox[102], 2 * MINUTE)
  {
    UserIsBound();
    LateAttemptIsBegun();
    var w := Next(W2, BotMove(LATE_WALLET), CFG);
    Reach([BotMove(STEP0), BotMove(STEP1)], W2, BotMove(LATE_WALLET), w);
    LateAttemptExpires();
    Reach([BotMove(STEP0), BotMove(STEP1)] + [BotMove(LATE_WALLET)], w, DEADLINE, Next(w, DEADLINE, CFG));
  }

  const LATE_ASKED: OutboxRow := NewRow(RESERVE, Command, 0, 2 * MINUTE + MICROSECOND)
  const LATE_BOT3: B.Flow := BOT3.(tables := BOT2.tables.(outbox := BOT2.tables.outbox[102 := LATE_ASKED]))

  lemma LateAttemptIsBegun()
    ensures B.StepTx(BOT2, BOT, 0, LATE_WALLET) == Commit(LATE_BOT3)
  {
    WalletsAreValid();
    assert Amount.FormatAmount(1, 0) == "1";
    var tx := B.StepTx(BOT2, BOT, 0, LATE_WALLET);
    assert tx.Commit?;
    assert tx.state.inactive == LATE_BOT3.inactive && tx.state.attempts == LATE_BOT3.attempts
           && tx.state.tables.outbox == LATE_BOT3.tables.outbox;
  }

  lemma LateAttemptExpires()
    ensures var b := B.NextDb(LATE_BOT3, BOT, 2 * MINUTE, B.Expire([20]));
            && 20 in b.attempts && b.attempts[20].status.AttemptExpired?
            && 102 in b.tables.outbox && Claimable(b.tables.outbox[102], 2 * MINUTE)
  {
    assert B.Expire([20]).ops[1..] == [];
    assert B.ExpireAttempts(LATE_BOT3, [20], 2 * MINUTE) == B.ExpireOne(LATE_BOT3, 20, 2 * MINUTE);
  }

  // A payment that comes before the offer is an error, not a rejected message.
  lemma EarlyPaymentIsAnError()
    ensures Reaches(PREPARED, W3)
    ensures B.StepTx(BOT3, BOT, 0, B.DeliverPayment(3, PAYMENT, HOUR, 103)) == Rollback
  {
    AttemptIsPrepared();
    BT.LatePaymentIsRejectedExactlyIfOffered(BOT3, BOT, 0, 3, PAYMENT, HOUR, 103);
  }

  // A confirmation about another asset verifies the operation.
  lemma OtherAssetIsAccepted()
    ensures Reaches(VERIFIED_RUN, W8) && SessionsMove(CONFIRM) in VERIFIED_RUN
    ensures CONFIRMED.asset != S.FactsOf(VERIFY).asset && ST.IsVerified(W8.sessions.db, 20)
  {
    OperationIsVerified();
    assert VERIFIED_RUN[|VERIFIED_RUN| - 1] == SessionsMove(CONFIRM);
  }

  const TOO_LATE: Move := AtBot(BR.Move(90 * MINUTE, B.Expire([20])))

  lemma AttemptExpires()
    ensures var b := B.NextDb(BOT6, BOT, 90 * MINUTE, B.Expire([20])); 20 in b.attempts && SystemTheorems.GaveUp(b, 20)
  {
    assert B.Expire([20]).ops[1..] == [];
    assert B.ExpireAttempts(BOT6, [20], 90 * MINUTE) == B.ExpireOne(BOT6, 20, 90 * MINUTE);
  }

  // The bot gives up an operation that the authority has verified.
  lemma VerifiedOperationIsExpired()
    ensures var w := Next(W8, TOO_LATE, CFG);
            && Reaches(VERIFIED_RUN + [TOO_LATE], w)
            && ST.IsVerified(w.sessions.db, 20) && 20 in w.bot.db.attempts && SystemTheorems.GaveUp(w.bot.db, 20)
  {
    OperationIsVerified();
    Reach(VERIFIED_RUN, W8, TOO_LATE, Next(W8, TOO_LATE, CFG));
    AttemptExpires();
  }

  // ---- the kept one ----

  const ANNOUNCE: S.Step := S.Publish(ClaimBatch({202}))
  const COMPLETE: B.Step := B.DeliverActivated(202, ACTIVATED, 24 * HOUR)
  const NEWS: Envelope := Envelope(202, ActivatedBody(ACTIVATED), 24 * HOUR)

  lemma ResultIsClaimed()
    ensures var w := Next(W8, SessionsMove(ANNOUNCE), CFG);
            Leads(W8, SessionsMove(ANNOUNCE), w) && w.bot == W8.bot && w.net == {WIRE, NEWS}
  {
    assert Claimable(RESULT, 0);
    assert SentBy(AUTHORITY2.tables.outbox, ClaimBatch({202}), 0) == {NEWS};
  }

  // Otherwise the session becomes active at the bot, with the version of the authority.
  lemma SessionIsShown()
    ensures var w := Next(W8, SessionsMove(ANNOUNCE), CFG);
            var w' := Next(w, BotMove(COMPLETE), CFG);
            && Reaches(VERIFIED_RUN + [SessionsMove(ANNOUNCE)] + [BotMove(COMPLETE)], w')
            && 5 in w'.bot.db.projection && w'.bot.db.projection[5].authorityVersion == 1
  {
    var w := Next(W8, SessionsMove(ANNOUNCE), CFG);
    OperationIsVerified();
    ResultIsClaimed();
    Reach(VERIFIED_RUN, W8, SessionsMove(ANNOUNCE), w);
    CompletionLeads(w);
    Reach(VERIFIED_RUN + [SessionsMove(ANNOUNCE)], w, BotMove(COMPLETE), Next(w, BotMove(COMPLETE), CFG));
    ActivationIsShown();
  }

  lemma CompletionLeads(w: World)
    requires w.bot == W8.bot && NEWS in w.net && w.sessions.now == 0
    ensures Leads(w, BotMove(COMPLETE), Next(w, BotMove(COMPLETE), CFG))
  {}

  lemma ActivationIsShown()
    ensures var b := B.NextDb(BOT6, BOT, 0, COMPLETE); 5 in b.projection && b.projection[5].authorityVersion == 1
  {}

  // ---- the authority alone ----

  const VERIFY2: ActivationVerify := VERIFY.(operationId := 21, sessionId := 6, balanceId := "c", transactionId := "y")
  const CONFIRMED2: TopupVerified := CONFIRMED.(operationId := 21, transactionId := "y")
  const CHECK2: S.Step := S.DeliverVerify(104, VERIFY2, HOUR + 30 * MINUTE, 203)

  const ACCEPTED2: InboxRow := InboxRow(VerifyBody(VERIFY2), Processing, None, None, HOUR + 30 * MINUTE)
  const TOPUP2: OutboxRow := NewRow(TopupVerifyBody(S.FactsOf(VERIFY2)), Command, 0, 5 * MINUTE)

  const AUTHORITY3: S.Authority := AUTHORITY2.(
                                   tables := Tables(AUTHORITY2.tables.inbox[104 := ACCEPTED2],
                                                    AUTHORITY2.tables.outbox[203 := TOPUP2]),
                                   verifications := AUTHORITY2.verifications[21 := S.NewVerification(VERIFY2, 104, 203,
                                                                                                     0)])

  lemma SecondCommandIsValid()
    ensures Domain.ValidateActivation(VERIFY2, "N", 0) && Domain.StorableCommand(VERIFY2)
  {
    CommandIsValid();
    PrintableIsTrimmed("y");
    assert Text.ValidUtf8("y"[1..]);
  }

  lemma SecondCommandIsAccepted()
    ensures S.StepTx(AUTHORITY2, "N", 0, CHECK2) == Commit(AUTHORITY3)
  {
    SecondCommandIsValid();
    var tx := S.StepTx(AUTHORITY2, "N", 0, CHECK2);
    assert tx.Commit?;
    assert tx.state.tables.inbox == AUTHORITY3.tables.inbox && tx.state.tables.outbox == AUTHORITY3.tables.outbox;
  }

  function AuthorityAt(s: S.Authority): SR.World { SR.World(s, 0, {}) }

  // A run of the authority may be extended by one more step at its front.
  lemma Prepend(w: SR.World, step: S.Step, s: S.Authority, rest: seq<SR.Move>)
    requires w.now == 0 && w.seen == {} && SR.Enabled(w, SR.Move(0, step), CFG.sessions)
    requires S.StepTx(w.db, "N", 0, step) == Commit(s)
    requires !step.ReadPending? && SR.EnabledRun(AuthorityAt(s), rest, CFG.sessions)
    ensures var moves := [SR.Move(0, step)] + rest;
            && SR.EnabledRun(w, moves, CFG.sessions)
            && SR.Run(w, moves, CFG.sessions) == SR.Run(AuthorityAt(s), rest, CFG.sessions)
  {
    assert ([SR.Move(0, step)] + rest)[1..] == rest;
    assert SR.Next(w, SR.Move(0, step), CFG.sessions) == AuthorityAt(s);
  }

  const LAST: seq<SR.Move> := [SR.Move(0, CHECK2)] + []
  const LATER: seq<SR.Move> := [SR.Move(0, CONFIRM)] + LAST
  const ALONE: seq<SR.Move> := [SR.Move(0, CHECK)] + LATER

  lemma AuthorityAlone()
    ensures SR.EnabledRun(SR.START, ALONE, CFG.sessions) && SR.Run(SR.START, ALONE, CFG.sessions).db == AUTHORITY3
  {
    CommandIsAccepted();
    ConfirmationIsAccepted();
    SecondCommandIsAccepted();
    Prepend(AuthorityAt(AUTHORITY2), CHECK2, AUTHORITY3, []);
    Prepend(AuthorityAt(AUTHORITY1), CONFIRM, AUTHORITY2, LAST);
    Prepend(SR.START, CHECK, AUTHORITY1, LATER);
  }

  const CONFIRM2: S.Step := S.DeliverTopupVerified(8, CONFIRMED2, HOUR, 204)

  const REGISTERED: S.Authority := AUTHORITY3.(tables := Register(AUTHORITY3.tables, 8, TopupVerifiedBody(CONFIRMED2),
                                                                  HOUR).0)
  const CONFLICTING: S.Identity := S.Identity("c", PAYER, Fingerprint(PAYER), "N")
  const WITH_WALLET: S.Authority := REGISTERED.(identities := AUTHORITY3.identities[Fingerprint("c") := CONFLICTING])

  lemma SecondConflicts()
    ensures S.EnsureIdentity(REGISTERED, VERIFY2) == (WITH_WALLET, true)
    ensures S.ActivateSession(WITH_WALLET, 0, VERIFY2) == S.Conflict
    ensures S.FactsAccepted(CONFIRMED2, VERIFY2, 0)
  {
    assert S.Conflicts(AUTHORITY3.sessions[5], VERIFY2);
  }

  const REFUSED: Body := S.ResultBody(VERIFY2, S.Rejected, 0, "CONFLICT", false, 0)

  lemma RefusalIsWritten()
    ensures S.FinishRejected(WITH_WALLET, 0, 21, "CONFLICT", false, 204, 8)
         == Commit(SI.DecidedState(WITH_WALLET, 0, 21, S.Rejected, REFUSED, Some("CONFLICT"), 204, Some(8)))
  {
    SI.FinishSucceeds(WITH_WALLET, 0, 21, S.Rejected, REFUSED, Some("CONFLICT"), 204, Some(8));
  }

  lemma SecondIsRefused()
    ensures var s' := S.NextDb(AUTHORITY3, "N", 0, CONFIRM2);
            && Fingerprint("c") !in AUTHORITY3.identities && Fingerprint("c") in s'.identities && !ST.IsVerified(s', 21)
  {
    SecondConflicts();
    assert S.StepTx(AUTHORITY3, "N", 0, CONFIRM2) == S.FinishRejected(WITH_WALLET, 0, 21, "CONFLICT", false, 204, 8);
    RefusalIsWritten();
  }

  // A second session of a user is refused, but the wallet of its balance is bound.
  lemma ConflictBindsTheWallet()
    ensures var s := SR.Run(SR.START, ALONE, CFG.sessions).db;
            var s' := S.NextDb(s, "N", 0, CONFIRM2);
            && SR.EnabledRun(SR.START, ALONE, CFG.sessions)
            && Fingerprint("c") !in s.identities && Fingerprint("c") in s'.identities && !ST.IsVerified(s', 21)
  {
    AuthorityAlone();
    SecondIsRefused();
  }
}
