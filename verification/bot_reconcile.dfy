// Expiry of overdue attempts, and that repeated passes drain them.
module BotReconcile {
  import opened Base
  import opened Bot
  import opened Counting

  ghost function Due(s: Flow, now: Time): set<Id> {
    set op | op in s.attempts && Overdue(s, op, now)
  }

  function Elements(ops: seq<Id>): set<Id> { set op | op in ops }

  // Expiring one attempt leaves every other one as it is.
  lemma ExpiryRemoves(s: Flow, op: Id, now: Time)
    requires Overdue(s, op, now)
    ensures Due(ExpireOne(s, op, now), now) == Due(s, now) - {op}
  {}

  lemma ElementsHead(ops: seq<Id>)
    requires ops != []
    ensures Elements(ops) == {ops[0]} + Elements(ops[1..])
  {}

  lemma {:induction false} ElementsSize(ops: seq<Id>)
    requires Distinct(ops)
    ensures |Elements(ops)| == |ops|
  {
    if ops == [] {
      assert Elements(ops) == {};
    } else {
      var rest := ops[1..];
      assert forall i | 0 <= i < |rest| :: rest[i] == ops[i + 1];
      ElementsSize(rest);
      ElementsHead(ops);
      assert ops[0] !in Elements(rest);
    }
  }

  // What a batch of overdue attempts leaves overdue.
  lemma {:induction false} BatchDrains(s: Flow, ops: seq<Id>, now: Time)
    requires Distinct(ops) && Elements(ops) <= Due(s, now)
    ensures Due(ExpireAttempts(s, ops, now), now) == Due(s, now) - Elements(ops)
    decreases |ops|
  {
    if ops != [] {
      var rest := ops[1..];
      assert ops[0] in Elements(ops);
      ExpiryRemoves(s, ops[0], now);
      ElementsHead(ops);
      assert forall i | 0 <= i < |rest| :: rest[i] == ops[i + 1];
      assert ops[0] !in Elements(rest);
      BatchDrains(ExpireOne(s, ops[0], now), rest, now);
    }
  }

  // ---- repeated passes ----

  // A pass takes as many overdue attempts as its limit allows.
  ghost predicate ValidPass(s: Flow, now: Time, limit: nat, ops: seq<Id>) {
    Distinct(ops) && Elements(ops) <= Due(s, now) && |ops| == Min(limit, |Due(s, now)|)
  }

  function RunPasses(s: Flow, now: Time, passes: seq<seq<Id>>): Flow
    decreases |passes|
  {
    if passes == [] then s else RunPasses(ExpireAttempts(s, passes[0], now), now, passes[1..])
  }

  ghost predicate ValidPasses(s: Flow, now: Time, limit: nat, passes: seq<seq<Id>>)
    decreases |passes|
  {
    passes == [] || (ValidPass(s, now, limit, passes[0])
                     && ValidPasses(ExpireAttempts(s, passes[0], now), now, limit, passes[1..]))
  }

  lemma {:induction false} PassesLeave(s: Flow, now: Time, limit: nat, passes: seq<seq<Id>>)
    requires ValidPasses(s, now, limit, passes)
    ensures |Due(RunPasses(s, now, passes), now)| == Left(|Due(s, now)|, |passes|, limit)
    decreases |passes|
  {
    if passes != [] {
      BatchDrains(s, passes[0], now);
      ElementsSize(passes[0]);
      RemovedCount(Due(s, now), Elements(passes[0]));
      PassesLeave(ExpireAttempts(s, passes[0], now), now, limit, passes[1..]);
    }
  }

  // n overdue attempts are gone after ceil(n / limit) passes at one moment: then no attempt is past its deadline.
  lemma PassesDrain(s: Flow, now: Time, limit: nat, passes: seq<seq<Id>>)
    requires ValidPasses(s, now, limit, passes) && |Due(s, now)| <= |passes| * limit
    ensures forall op: Id :: !Overdue(RunPasses(s, now, passes), op, now)
  {
    PassesLeave(s, now, limit, passes);
    LeftIsDifference(|Due(s, now)|, |passes|, limit);
    var s' := RunPasses(s, now, passes);
    assert forall op: Id | Overdue(s', op, now) :: op in Due(s', now);
  }
}
