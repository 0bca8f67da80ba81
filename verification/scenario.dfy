// One run of both services in detail: an activation from the invite to the verdict, and what may go wrong on the way.
module Scenario {
  import opened Base
  import opened Contracts
  import opened Messages
  import B = Bot
  import S = Sessions
  import Amount
  import Domain
  import Text

  const PAYER: string := "wwwwwwwwwwwwwwww"
  const PAYEE: string := "rrrrrrrrrrrrrrrr"
  const BOT: B.Settings := B.Settings("N", 0, HOUR, 1, 1, LEASE)

  const ORDER: InviteCreate := InviteCreate(10, "b", 0)
  const ANSWER: Body := InviteCreatedBody(InviteCreated(10, "t", B.DeepLink("bot", "t"), HOUR))
  const RESERVE: Body := ReserveBody(ActivationReserve(20, "b", 5, PAYER, "1", "USDT", "N"))
  const RESERVED: ActivationReserved := ActivationReserved(20, "r", PAYEE, "1", Some(0), Some(HOUR))
  const PAYMENT: PaymentConfirmed := PaymentConfirmed(20, "r", "x", PAYER, PAYEE, "1", Some(0))
  const VERIFY: ActivationVerify := ActivationVerify(20, 5, "b", 1, 1, 1, PAYER, PAYEE, "1", "USDT", "N", "x", "r", 0,
                                                     HOUR, "")

  const CONFIRMED: TopupVerified := TopupVerified(20, "x", "r", PAYER, PAYEE, "1", "USDC", "N", Some(0))
  const ACTIVATED: Activated := Activated(20, 5, "b", "ACTIVE", 1, Some(0))

  const STEP0: B.Step := B.DeliverInviteCreate(1, ORDER, HOUR, "bot", "t", 101)
  const BOT1: B.Flow := B.Flow(
                          Tables(map[1 := InboxRow(InviteCreateBody(ORDER), Completed, Some(101), Some(0), HOUR)],
                                 map[101 := NewRow(ANSWER, Result, 0, 5 * MINUTE)]),
                          map["t" := B.Invite(10, 1, 101, "b", B.InviteActive, HOUR, None, None)], map[], map[], map[])

  lemma PrintableIsTrimmed(s: string)
    requires |s| > 0 && 0x21 <= s[0] as int <= 0x7E && 0x21 <= s[|s| - 1] as int <= 0x7E
    ensures Text.Trimmed(s)
  {
    forall n: nat | 1 <= n <= 3 ensures !Text.StartsWithSpace(s, n) && !Text.EndsWithSpace(s, n) {
      if n <= |s| {
        assert s[..n][0] == s[0] && s[|s| - n..][n - 1] == s[|s| - 1];
      }
    }
  }

  const BOUND: B.Conversation := B.Conversation(1, 1, 1, "b", "", B.NeedsWallet, None, 0, 1)

  const STEP1: B.Step := B.Consume(1, 1, 1, "", "t", 5)
  const BOT2: B.Flow := BOT1.(
                        invites := map["t" := B.Invite(10, 1, 101, "b", B.InviteConsumed, HOUR, Some(0), Some(5))],
                        inactive := map[5 := BOUND])

  const BEGUN: B.Attempt := B.NewAttempt(5, 102, PAYER, "1", "N", 0)
  const ASKED: OutboxRow := NewRow(RESERVE, Command, 0, 2 * MINUTE)

  const STEP2: B.Step := B.SendWallet(1, 1, Some(5), PAYER, 1, 0, 20, 102)
  const BOT3: B.Flow := BOT2.(
                        tables := BOT2.tables.(outbox := BOT2.tables.outbox[102 := ASKED]),
                        inactive := map[5 := BOUND.(dialog := B.NeedsReservation, currentAttempt := Some(20),
                                        version := 2)],
                        attempts := map[20 := BEGUN])

  const OFFERED: B.Attempt := BEGUN.(offer := Some(B.Offer(PAYEE, "r", 0, HOUR)), status := B.AwaitingPayment,
                              version := 2)

  const STEP3: B.Step := B.DeliverReserved(2, RESERVED, HOUR)
  const BOT4: B.Flow := BOT3.(
                        tables := Tables(BOT3.tables.inbox[2 := InboxRow(ReservedBody(RESERVED), Applied, None, Some(0),
                                                                                          HOUR)],
                                         BOT3.tables.outbox[102 := ASKED.(status := Confirmed,
                                         confirmedAt := Some(0))]),
                        inactive := map[5 := BOUND.(dialog := B.NeedsPayment, currentAttempt := Some(20),
                                        version := 3)],
                        attempts := map[20 := OFFERED])

  const PAID: B.Attempt := OFFERED.(verifyId := Some(103), transactionId := Some("x"), status := B.AwaitingVerification,
                           version := 3)
  const SENT: OutboxRow := NewRow(VerifyBody(VERIFY), Command, 0, HOUR + 30 * MINUTE)

  const STEP4: B.Step := B.DeliverPayment(3, PAYMENT, HOUR, 103)
  const BOT5: B.Flow := BOT4.(
                        tables := Tables(BOT4.tables.inbox[3 := InboxRow(PaymentBody(PAYMENT), Applied, None, Some(0),
                                                                                          HOUR)],
                                         BOT4.tables.outbox[103 := SENT]),
                        inactive := map[5 := BOUND.(dialog := B.NeedsVerification, currentAttempt := Some(20),
                                        version := 4)],
                        attempts := map[20 := PAID])

  const STEP5: B.Step := B.Publish(ClaimBatch({103}))
  const BOT6: B.Flow := BOT5.(
                        tables := BOT5.tables.(outbox := BOT5.tables.outbox[103 := SENT.(status := Publishing,
                        leaseUntil := Some(LEASE))]))

  // ---- the bot's part ----

  lemma InviteIsMade()
    ensures B.StepTx(B.EMPTY, BOT, 0, STEP0) == Commit(BOT1)
  {
    PrintableIsTrimmed("b");
    assert Domain.ValidateInviteCreate(ORDER);
    var tx := B.StepTx(B.EMPTY, BOT, 0, STEP0);
    assert tx.Commit?;
    assert tx.state.invites == BOT1.invites;
    assert tx.state.tables.inbox == BOT1.tables.inbox;
    assert tx.state.tables.outbox == BOT1.tables.outbox;
  }

  lemma InviteIsConsumed()
    ensures B.StepTx(BOT1, BOT, 0, STEP1) == Commit(BOT2)
  {
    var tx := B.StepTx(BOT1, BOT, 0, STEP1);
    assert tx.Commit?;
    assert tx.state.invites == BOT2.invites && tx.state.inactive == BOT2.inactive;
  }

  lemma WalletsAreValid()
    ensures Domain.ValidateWallet(PAYER) && Domain.ValidateWallet(PAYEE)
  {
    PrintableIsTrimmed(PAYER);
    PrintableIsTrimmed(PAYEE);
  }

  lemma AttemptIsBegun()
    ensures B.StepTx(BOT2, BOT, 0, STEP2) == Commit(BOT3)
  {
    WalletsAreValid();
    assert Amount.FormatAmount(1, 0) == "1";
    var tx := B.StepTx(BOT2, BOT, 0, STEP2);
    assert tx.Commit?;
    assert tx.state.inactive == BOT3.inactive && tx.state.attempts == BOT3.attempts
           && tx.state.tables.outbox == BOT3.tables.outbox;
  }

  lemma ShortTextsAreStorable()
    ensures Text.Storable("") && Text.Storable("r") && Text.Storable("x") && Domain.ExternalId("r")
    ensures Domain.ExternalId("x")
  {
    PrintableIsTrimmed("r");
    PrintableIsTrimmed("x");
    assert Text.ValidUtf8("r"[1..]) && Text.ValidUtf8("x"[1..]);
  }

  lemma OfferIsGood()
    ensures B.ReservationAccepted(RESERVED, "1", 0) && B.Reserve(BEGUN, RESERVED, 0) == OFFERED
  {
    WalletsAreValid();
    ShortTextsAreStorable();
  }

  lemma OfferIsTaken()
    ensures B.StepTx(BOT3, BOT, 0, STEP3) == Commit(BOT4)
  {
    OfferIsGood();
    var t := Register(BOT3.tables, 2, ReservedBody(RESERVED), HOUR).0;
    assert B.StepTx(BOT3, BOT, 0, STEP3) == B.MoveOn(BOT3, t, 0, 2, 20, OFFERED, B.NeedsPayment, Some(102));
    OfferMovesOn(t);
  }

  lemma OfferMovesOn(t: Tables)
    requires t == Register(BOT3.tables, 2, ReservedBody(RESERVED), HOUR).0
    ensures B.MoveOn(BOT3, t, 0, 2, 20, OFFERED, B.NeedsPayment, Some(102)) == Commit(BOT4)
  {
    var tx := B.MoveOn(BOT3, t, 0, 2, 20, OFFERED, B.NeedsPayment, Some(102));
    assert tx.Commit?;
    assert tx.state.inactive == BOT4.inactive && tx.state.attempts == BOT4.attempts;
    assert tx.state.tables.inbox == BOT4.tables.inbox && tx.state.tables.outbox == BOT4.tables.outbox;
  }

  lemma PaymentIsGood()
    ensures B.PaymentTaken(BOT4, OFFERED, PAYMENT, 0) && !B.TransactionTaken(BOT4, 20, "N", "x")
    ensures B.VerifyCommand(OFFERED, OFFERED.offer.value, BOT4.inactive[5], 20, "x", "N") == VERIFY
    ensures B.Paid(OFFERED, 103, "x", 0) == PAID
  {
    ShortTextsAreStorable();
  }

  lemma PaymentIsPaid(t: Tables)
    requires t == Register(BOT4.tables, 3, PaymentBody(PAYMENT), HOUR).0
    ensures B.Pay(BOT4, t, BOT, 0, 3, OFFERED, PAYMENT, 103)
         == B.MoveOn(BOT4, t.(outbox := t.outbox[103 := SENT]), 0, 3, 20, PAID, B.NeedsVerification, None)
  {
    PaymentIsGood();
  }

  lemma PaymentMovesOn(t: Tables)
    requires t == Register(BOT4.tables, 3, PaymentBody(PAYMENT), HOUR).0
    ensures B.MoveOn(BOT4, t.(outbox := t.outbox[103 := SENT]), 0, 3, 20, PAID, B.NeedsVerification, None)
         == Commit(BOT5)
  {
    var tx := B.MoveOn(BOT4, t.(outbox := t.outbox[103 := SENT]), 0, 3, 20, PAID, B.NeedsVerification, None);
    assert tx.Commit?;
    assert tx.state.inactive == BOT5.inactive && tx.state.attempts == BOT5.attempts;
    assert tx.state.tables.inbox == BOT5.tables.inbox && tx.state.tables.outbox == BOT5.tables.outbox;
  }

  lemma PaymentIsReceived(t: Tables)
    requires t == Register(BOT4.tables, 3, PaymentBody(PAYMENT), HOUR).0
    ensures B.Receive(BOT4, 0, 3, PaymentBody(PAYMENT), HOUR, 20, B.AwaitingPayment) == B.Received(t, OFFERED)
  {}

  lemma PaymentIsTaken()
    ensures B.StepTx(BOT4, BOT, 0, STEP4) == Commit(BOT5)
  {
    var t := Register(BOT4.tables, 3, PaymentBody(PAYMENT), HOUR).0;
    PaymentIsReceived(t);
    assert B.StepTx(BOT4, BOT, 0, STEP4) == B.ApplyPayment(BOT4, BOT, 0, 3, PAYMENT, HOUR, 103);
    assert BOT4.attempts[20].offer.Some?;
    PaymentIsPaid(t);
    PaymentMovesOn(t);
  }

  lemma CommandIsClaimed()
    ensures B.StepTx(BOT5, BOT, 0, STEP5) == Commit(BOT6)
  {
    assert PublisherNext(BOT5.tables.outbox, ClaimBatch({103}), 0) == BOT6.tables.outbox;
  }

  // ---- the authority's part ----

  const ACCEPTED: InboxRow := InboxRow(VerifyBody(VERIFY), Processing, None, None, HOUR + 30 * MINUTE)
  const TOPUP: OutboxRow := NewRow(TopupVerifyBody(S.FactsOf(VERIFY)), Command, 0, 5 * MINUTE)
  const UNDECIDED: S.Verification := S.NewVerification(VERIFY, 103, 201, 0)

  const CHECK: S.Step := S.DeliverVerify(103, VERIFY, HOUR + 30 * MINUTE, 201)
  const AUTHORITY1: S.Authority := S.Authority(
                                     Tables(map[103 := ACCEPTED], map[201 := TOPUP]), map[20 := UNDECIDED], map[],
                                     map[], map[])

  lemma CommandIsValid()
    ensures Domain.ValidateActivation(VERIFY, "N", 0) && Domain.StorableCommand(VERIFY)
  {
    WalletsAreValid();
    ShortTextsAreStorable();
    Amount.FormattedAmountIsValid(1, 0);
    assert Amount.FormatAmount(1, 0) == "1";
  }

  lemma CommandIsAccepted()
    ensures S.StepTx(S.EMPTY, "N", 0, CHECK) == Commit(AUTHORITY1)
  {
    CommandIsValid();
    var tx := S.StepTx(S.EMPTY, "N", 0, CHECK);
    assert tx.Commit?;
    assert tx.state.verifications == AUTHORITY1.verifications;
    assert tx.state.tables.inbox == AUTHORITY1.tables.inbox && tx.state.tables.outbox == AUTHORITY1.tables.outbox;
  }

  const RESULT: OutboxRow := NewRow(ActivatedBody(ACTIVATED), Result, 0, 24 * HOUR)
  const SESSION: S.Session := S.Session(Fingerprint("b"), 1, 1, 1, "", S.Active, "N", "x", 0, 0, 1)

  const CONFIRM: S.Step := S.DeliverTopupVerified(4, CONFIRMED, HOUR, 202)
  const AUTHORITY2: S.Authority := S.Authority(
                                     Tables(map[103 := ACCEPTED.(status := Completed, resultId := Some(202),
                                                completedAt := Some(0)),
                                                4 := InboxRow(TopupVerifiedBody(CONFIRMED), Completed, Some(202),
                                                              Some(0), HOUR)],
                                            map[201 := TOPUP.(status := Confirmed, confirmedAt := Some(0)),
                                                202 := RESULT]),
                                     map[20 := UNDECIDED.(status := S.Verified, completedAt := Some(0), version := 2)],
                                     map[Fingerprint("b") := S.Identity("b", PAYER, Fingerprint(PAYER), "N")],
                                     map[5 := SESSION],
                                     map[20 := S.SessionEvent(5, S.ActivatedEvent, 1, 0, "N", "x")])

  const CONFIRMING: S.Authority := AUTHORITY1.(tables := Register(AUTHORITY1.tables, 4, TopupVerifiedBody(CONFIRMED),
                                                                  HOUR).0)
  const WITH_IDENTITY: S.Authority := CONFIRMING.(identities := AUTHORITY2.identities)
  const WITH_SESSION: S.Authority := WITH_IDENTITY.(sessions := AUTHORITY2.sessions, events := AUTHORITY2.events)

  // The asset of the confirmation is not the one that was asked for.
  lemma FactsAreAccepted()
    ensures S.FactsAccepted(CONFIRMED, VERIFY, 0)
  {}

  lemma WalletIsBound()
    ensures S.EnsureIdentity(CONFIRMING, VERIFY) == (WITH_IDENTITY, true)
  {}

  lemma SessionIsActivated()
    ensures S.ActivateSession(WITH_IDENTITY, 0, VERIFY) == S.Activation(WITH_SESSION, 1)
  {}

  lemma ResultIsWritten()
    ensures var body := S.ResultBody(VERIFY, S.Verified, 1, "", false, 0);
            S.Finish(WITH_SESSION, 0, 20, 103, S.Verified, body, None, 202, Some(4)) == Commit(AUTHORITY2)
  {
    var body := S.ResultBody(VERIFY, S.Verified, 1, "", false, 0);
    var tx := S.Finish(WITH_SESSION, 0, 20, 103, S.Verified, body, None, 202, Some(4));
    assert tx.Commit?;
    assert tx.state.verifications == AUTHORITY2.verifications;
    assert tx.state.tables.inbox == AUTHORITY2.tables.inbox && tx.state.tables.outbox == AUTHORITY2.tables.outbox;
  }

  lemma ConfirmationIsAccepted()
    ensures S.StepTx(AUTHORITY1, "N", 0, CONFIRM) == Commit(AUTHORITY2)
  {
    assert S.StepTx(AUTHORITY1, "N", 0, CONFIRM) == S.DecideVerified(CONFIRMING, 0, 4, CONFIRMED, 202);
    FactsAreAccepted();
    WalletIsBound();
    SessionIsActivated();
    ResultIsWritten();
  }
}
