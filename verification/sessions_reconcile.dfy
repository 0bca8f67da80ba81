// The reconciliation pass of the authority, and that repeated passes drain what is due.
module SessionsReconcile {
  import opened Base
  import opened Contracts
  import opened Sessions
  import opened SessionsInvariant
  import opened SessionsMachine
  import opened Counting

  ghost function Due(s: Authority, now: Time): set<Id> {
    set op | op in s.verifications && NeedsRetry(s, op, now)
  }

  // When an item is acted on, and the id its message gets.
  datatype Turn = Turn(at: Time, freshId: Id)

  // What a pass leaves, and whether it got through.
  datatype PassResult = PassResult(state: Authority, ok: bool)

  // Items one after another, each in its own transaction at its own time; the first error ends the pass. The clock of
  // the pass, which decides between expiry and replacement, is read once.
  function RunItems(s: Authority, passStart: Time, items: seq<PendingRetry>, turns: seq<Turn>): PassResult
    requires |turns| >= |items|
    decreases |items|
  {
    if items == [] then PassResult(s, true)
    else match ReconcileItem(s, turns[0].at, passStart, items[0], turns[0].freshId)
         case Rollback => PassResult(s, false)
         case Commit(s') => RunItems(s', passStart, items[1..], turns[1..])
  }

  ghost predicate Fresh(s: Authority, turns: seq<Turn>) {
    && (forall i, j | 0 <= i < j < |turns| :: turns[i].freshId != turns[j].freshId)
    && (forall i | 0 <= i < |turns| :: turns[i].freshId !in s.tables.outbox)
  }

  // No turn comes before the pass; a replacement that comes too late can no longer be signed.
  predicate InTime(item: PendingRetry, turn: Turn, passStart: Time) {
    item.offerExpiresAt <= passStart || turn.at < TruncateToMicros(Min(passStart + 5 * MINUTE, item.offerExpiresAt))
  }

  ghost predicate Timely(items: seq<PendingRetry>, turns: seq<Turn>, passStart: Time)
    requires |turns| >= |items|
  {
    forall i | 0 <= i < |items| :: InTime(items[i], turns[i], passStart)
  }

  ghost predicate AfterStart(turns: seq<Turn>, passStart: Time) {
    forall i | 0 <= i < |turns| :: passStart <= turns[i].at
  }

  // Items as just read: distinct, due, and up to date.
  ghost predicate CurrentItems(s: Authority, now: Time, items: seq<PendingRetry>) {
    && (forall i | 0 <= i < |items| :: NeedsRetry(s, items[i].operationId, now)
                                       && items[i] == RetryItem(s, items[i].operationId))
    && (forall i, j | 0 <= i < j < |items| :: items[i].operationId != items[j].operationId)
  }

  function Operations(items: seq<PendingRetry>): set<Id> {
    set i | 0 <= i < |items| :: items[i].operationId
  }

  // Acting on one current item commits, leaves that operation no longer due, and every other one as it was.
  ghost predicate Settles(s: Authority, s': Authority, now: Time, op: Id, freshId: Id) {
    && !NeedsRetry(s', op, now)
    && (forall o: Id | o != op :: (NeedsRetry(s', o, now) <==> NeedsRetry(s, o, now)))
    && (forall o | o in s.verifications && o != op :: o in s'.verifications
                                                      && s'.verifications[o] == s.verifications[o])
    && s'.tables.outbox.Keys == s.tables.outbox.Keys + {freshId}
    && (forall o | o in s'.verifications :: o in s.verifications)
  }

  lemma ItemIsReady(s: Authority, now: Time, op: Id, freshId: Id)
    requires Inv(s) && NeedsRetry(s, op, now) && freshId !in s.tables.outbox
    ensures ReadyToDecide(s, op, freshId, None) && SeenOk(s, Seen(RetryItem(s, op), now))
    ensures OwnCommands(s, op)
  {
    assert VerificationOk(s, op);
    CommandsAreOwn(s, op);
  }

  lemma CommandsAreOwn(s: Authority, op: Id)
    requires VerificationsOk(s) && op in s.verifications
    ensures OwnCommands(s, op)
  {
    forall o | o in s.verifications
      ensures s.verifications[o].topupId in s.tables.outbox
              && (o != op ==> s.verifications[o].topupId != s.verifications[op].topupId)
    {
      assert VerificationOk(s, o) && VerificationOk(s, op);
    }
  }

  // The topup commands are pairwise different rows of the outbox.
  ghost predicate OwnCommands(s: Authority, op: Id) {
    && op in s.verifications
    && (forall o | o in s.verifications && o != op :: s.verifications[o].topupId != s.verifications[op].topupId)
    && (forall o | o in s.verifications :: s.verifications[o].topupId in s.tables.outbox)
  }

  lemma ExpiringShape(s: Authority, now: Time, at: Time, op: Id, freshId: Id)
    requires ReadyToDecide(s, op, freshId, None) && StoredExpiry(s.verifications[op].command) <= now
    ensures ReconcileItem(s, at, now, RetryItem(s, op), freshId)
         == Commit(DecidedState(s, at, op, Expired, ActivationRejectedBody(Rejection(op, "EXPIRED", false)),
                                Some("EXPIRED"), freshId, None))
  {
    FinishSucceeds(s, at, op, Expired, ActivationRejectedBody(Rejection(op, "EXPIRED", false)), Some("EXPIRED"),
                   freshId, None);
  }

  lemma DecidedSettles(s: Authority, now: Time, at: Time, op: Id, body: Body, freshId: Id)
    requires ReadyToDecide(s, op, freshId, None) && OwnCommands(s, op)
    ensures Settles(s, DecidedState(s, at, op, Expired, body, Some("EXPIRED"), freshId, None), now, op, freshId)
  {}

  lemma ReplacingSettles(s: Authority, now: Time, turn: Turn, op: Id)
    requires OwnCommands(s, op) && NeedsRetry(s, op, now) && turn.freshId !in s.tables.outbox
    requires now < StoredExpiry(s.verifications[op].command)
    ensures var tx := ReconcileItem(s, turn.at, now, RetryItem(s, op), turn.freshId);
            && (tx.Commit? <==> InTime(RetryItem(s, op), turn, now))
            && (tx.Commit? ==> Settles(s, tx.state, now, op, turn.freshId))
  {}

  lemma ItemSettles(s: Authority, now: Time, turn: Turn, op: Id)
    requires Inv(s) && NeedsRetry(s, op, now) && turn.freshId !in s.tables.outbox && now <= turn.at
    ensures var tx := ReconcileItem(s, turn.at, now, RetryItem(s, op), turn.freshId);
            && (tx.Commit? <==> InTime(RetryItem(s, op), turn, now))
            && (tx.Commit? ==> Settles(s, tx.state, now, op, turn.freshId) && Inv(tx.state))
  {
    ItemIsReady(s, now, op, turn.freshId);
    if StoredExpiry(s.verifications[op].command) <= now {
      ExpiringShape(s, now, turn.at, op, turn.freshId);
      DecidedSettles(s, now, turn.at, op, ActivationRejectedBody(Rejection(op, "EXPIRED", false)), turn.freshId);
    } else {
      ReplacingSettles(s, now, turn, op);
    }
    ReconcileKeepsInv(s, turn.at, now, Seen(RetryItem(s, op), now), turn.freshId);
  }

  lemma ItemsStayCurrent(s: Authority, s': Authority, now: Time, items: seq<PendingRetry>, freshId: Id)
    requires items != [] && CurrentItems(s, now, items) && Settles(s, s', now, items[0].operationId, freshId)
    ensures CurrentItems(s', now, items[1..])
  {
    var rest := items[1..];
    forall i | 0 <= i < |rest|
      ensures NeedsRetry(s', rest[i].operationId, now) && rest[i] == RetryItem(s', rest[i].operationId)
    {
      assert rest[i] == items[i + 1] && items[0].operationId != items[i + 1].operationId;
    }
  }

  // Ready for a pass, or for the rest of one.
  ghost predicate ReadyForPass(s: Authority, now: Time, items: seq<PendingRetry>, turns: seq<Turn>) {
    Inv(s) && CurrentItems(s, now, items) && |turns| >= |items| && Fresh(s, turns) && AfterStart(turns, now)
  }

  function AfterTurn(s: Authority, now: Time, items: seq<PendingRetry>, turns: seq<Turn>): Tx<Authority>
    requires items != [] && |turns| >= |items|
  {
    ReconcileItem(s, turns[0].at, now, items[0], turns[0].freshId)
  }

  lemma TurnSettles(s: Authority, now: Time, items: seq<PendingRetry>, turns: seq<Turn>)
    requires items != [] && ReadyForPass(s, now, items, turns)
    ensures var tx := AfterTurn(s, now, items, turns);
            && (tx.Commit? <==> InTime(items[0], turns[0], now))
            && (tx.Commit? ==> ReadyForPass(tx.state, now, items[1..], turns[1..])
                               && Due(tx.state, now) == Due(s, now) - {items[0].operationId})
  {
    var op, tx := items[0].operationId, AfterTurn(s, now, items, turns);
    assert items[0] == RetryItem(s, op);
    ItemSettles(s, now, turns[0], op);
    if tx.Commit? {
      ItemsStayCurrent(s, tx.state, now, items, turns[0].freshId);
      FreshTail(s, tx.state, turns);
      DueAfter(s, tx.state, now, op, turns[0].freshId);
    }
  }

  // A pass over freshly read items gets through exactly when no replacement comes too late, and then it leaves exactly
  // the other due operations due.
  lemma {:induction false} PassDrains(s: Authority, now: Time, items: seq<PendingRetry>, turns: seq<Turn>)
    requires ReadyForPass(s, now, items, turns)
    ensures var r := RunItems(s, now, items, turns);
            && (r.ok <==> Timely(items, turns, now)) && Inv(r.state)
            && (r.ok ==> Due(r.state, now) == Due(s, now) - Operations(items))
    decreases |items|
  {
    if items != [] {
      TurnSettles(s, now, items, turns);
      TimelyHead(items, turns, now);
      RunItemsHead(s, now, items, turns);
      var tx := AfterTurn(s, now, items, turns);
      if tx.Commit? {
        PassDrains(tx.state, now, items[1..], turns[1..]);
        OperationsHead(items);
      }
    }
  }

  lemma RunItemsHead(s: Authority, now: Time, items: seq<PendingRetry>, turns: seq<Turn>)
    requires items != [] && |turns| >= |items|
    ensures RunItems(s, now, items, turns) ==
            match AfterTurn(s, now, items, turns)
            case Rollback => PassResult(s, false)
            case Commit(s') => RunItems(s', now, items[1..], turns[1..])
  {}

  lemma TimelyHead(items: seq<PendingRetry>, turns: seq<Turn>, now: Time)
    requires items != [] && |turns| >= |items|
    ensures Timely(items, turns, now) <==> InTime(items[0], turns[0], now) && Timely(items[1..], turns[1..], now)
  {
    if InTime(items[0], turns[0], now) && Timely(items[1..], turns[1..], now) {
      forall i | 0 <= i < |items| ensures InTime(items[i], turns[i], now) {
        if i > 0 { assert InTime(items[1..][i - 1], turns[1..][i - 1], now); }
      }
    }
    if Timely(items, turns, now) {
      forall i | 0 <= i < |items[1..]| ensures InTime(items[1..][i], turns[1..][i], now) {
        assert InTime(items[i + 1], turns[i + 1], now);
      }
    }
  }

  lemma DueAfter(s: Authority, s': Authority, now: Time, op: Id, freshId: Id)
    requires Settles(s, s', now, op, freshId)
    ensures Due(s', now) == Due(s, now) - {op}
  {}

  lemma FreshTail(s: Authority, s': Authority, turns: seq<Turn>)
    requires turns != [] && Fresh(s, turns) && s'.tables.outbox.Keys == s.tables.outbox.Keys + {turns[0].freshId}
    ensures Fresh(s', turns[1..])
  {
    assert forall i | 0 <= i < |turns[1..]| :: turns[1..][i] == turns[i + 1]
                                               && turns[i + 1].freshId != turns[0].freshId;
  }

  lemma OperationsHead(items: seq<PendingRetry>)
    requires items != []
    ensures Operations(items) == {items[0].operationId} + Operations(items[1..])
  {}

  lemma {:induction false} OperationsSize(items: seq<PendingRetry>)
    requires forall i, j | 0 <= i < j < |items| :: items[i].operationId != items[j].operationId
    ensures |Operations(items)| == |items|
  {
    if items == [] {
      assert Operations(items) == {};
    } else {
      var rest := items[1..];
      assert forall i | 0 <= i < |rest| :: rest[i] == items[i + 1];
      OperationsSize(rest);
      OperationsHead(items);
      assert items[0].operationId !in Operations(rest);
    }
  }

  // ---- repeated passes ----

  datatype Pass = Pass(items: seq<PendingRetry>, turns: seq<Turn>)

  // A pass reads as many due items as the limit allows and acts on each before it is too late.
  ghost predicate ValidPass(s: Authority, now: Time, limit: nat, pass: Pass) {
    && CurrentItems(s, now, pass.items) && |pass.items| == Min(limit, |Due(s, now)|) && |pass.turns| >= |pass.items|
    && Fresh(s, pass.turns) && AfterStart(pass.turns, now) && Timely(pass.items, pass.turns, now)
  }

  function RunPasses(s: Authority, now: Time, passes: seq<Pass>): Authority
    requires forall pass | pass in passes :: |pass.turns| >= |pass.items|
    decreases |passes|
  {
    if passes == [] then s
    else RunPasses(RunItems(s, now, passes[0].items, passes[0].turns).state, now, passes[1..])
  }

  ghost predicate ValidPasses(s: Authority, now: Time, limit: nat, passes: seq<Pass>)
    decreases |passes|
  {
    passes == [] ||
    (ValidPass(s, now, limit, passes[0]) &&
     ValidPasses(RunItems(s, now, passes[0].items, passes[0].turns).state, now, limit, passes[1..]))
  }

  lemma OperationsAreDue(s: Authority, now: Time, items: seq<PendingRetry>)
    requires CurrentItems(s, now, items)
    ensures Operations(items) <= Due(s, now)
  {}

  lemma PassShrinks(s: Authority, now: Time, limit: nat, pass: Pass)
    requires Inv(s) && ValidPass(s, now, limit, pass)
    ensures var s' := RunItems(s, now, pass.items, pass.turns).state;
            Inv(s') && |Due(s', now)| == |Due(s, now)| - Min(limit, |Due(s, now)|)
  {
    PassDrains(s, now, pass.items, pass.turns);
    OperationsSize(pass.items);
    OperationsAreDue(s, now, pass.items);
    RemovedCount(Due(s, now), Operations(pass.items));
  }

  lemma {:induction false} PassesLeave(s: Authority, now: Time, limit: nat, passes: seq<Pass>)
    requires Inv(s) && ValidPasses(s, now, limit, passes)
    requires forall pass | pass in passes :: |pass.turns| >= |pass.items|
    ensures var s' := RunPasses(s, now, passes); Inv(s') && |Due(s', now)| == Left(|Due(s, now)|, |passes|, limit)
    decreases |passes|
  {
    if passes != [] {
      ValidPassesHead(s, now, limit, passes);
      PassShrinks(s, now, limit, passes[0]);
      PassesLeave(RunItems(s, now, passes[0].items, passes[0].turns).state, now, limit, passes[1..]);
      RunPassesHead(s, now, passes);
    }
  }

  lemma ValidPassesHead(s: Authority, now: Time, limit: nat, passes: seq<Pass>)
    requires passes != [] && ValidPasses(s, now, limit, passes)
    ensures ValidPass(s, now, limit, passes[0])
    ensures ValidPasses(RunItems(s, now, passes[0].items, passes[0].turns).state, now, limit, passes[1..])
  {}

  lemma RunPassesHead(s: Authority, now: Time, passes: seq<Pass>)
    requires passes != [] && forall pass | pass in passes :: |pass.turns| >= |pass.items|
    ensures passes[0] in passes
    ensures RunPasses(s, now, passes) == RunPasses(RunItems(s, now, passes[0].items, passes[0].turns).state, now,
                                                   passes[1..])
  {}

  // At a fixed time and without interference, n due operations are drained by ceil(n / limit) passes: then every
  // undecided verification has a live offer and a top-up command that is not dead.
  lemma PassesDrain(s: Authority, now: Time, limit: nat, passes: seq<Pass>)
    requires Inv(s) && ValidPasses(s, now, limit, passes)
    requires forall pass | pass in passes :: |pass.turns| >= |pass.items|
    requires |Due(s, now)| <= |passes| * limit
    ensures var s' := RunPasses(s, now, passes);
            forall op: Id | Undecided(s', op) :: Healthy(s', now, op)
  {
    PassesLeave(s, now, limit, passes);
    LeftIsDifference(|Due(s, now)|, |passes|, limit);
    var s' := RunPasses(s, now, passes);
    forall op: Id | Undecided(s', op) ensures Healthy(s', now, op) { DrainedMeansHealthy(s', now, op); }
  }

  predicate Healthy(s: Authority, now: Time, op: Id)
    requires op in s.verifications
  {
    && now < StoredExpiry(s.verifications[op].command)
    && s.verifications[op].topupId in s.tables.outbox && !s.tables.outbox[s.verifications[op].topupId].status.Dead?
  }

  lemma DrainedMeansHealthy(s: Authority, now: Time, op: Id)
    requires VerificationsOk(s) && |Due(s, now)| == 0 && Undecided(s, op)
    ensures Healthy(s, now, op)
  {
    assert VerificationOk(s, op);
    assert op !in Due(s, now);
  }
}
