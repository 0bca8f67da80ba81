// The outbox publisher: how long it waits before a retry, which rows it claims, and what a batch does to the outbox.
module Publisher {
  import opened Base
  import opened Messages
  import Counting

  const MAX_INT64: int := 0x7FFF_FFFF_FFFF_FFFF
  const MIN_INT64: int := -0x8000_0000_0000_0000

  // `overflow` is what the processor makes of a float that does not fit into 64 bits.
  datatype Policy = Policy(retryInitial: Time, retryMax: Time, batch: nat, overflow: int)

  predicate ValidPolicy(cfg: Policy) {
    0 < cfg.retryInitial <= cfg.retryMax <= MAX_INT64 && (cfg.overflow == MAX_INT64 || cfg.overflow == MIN_INT64)
  }

  // ---- retry delays ----

  function Pow2(k: nat): (r: nat)
    ensures r >= 1
  {
    if k == 0 then 1 else 2 * Pow2(k - 1)
  }

  // Conversion of a non-negative float to a duration.
  function ToInt64(x: real, overflow: int): int {
    if x < (MAX_INT64 + 1) as real then x.Floor else overflow
  }

  // The delay before jitter: doubled with every attempt, up to the maximum.
  function Backoff(cfg: Policy, attempt: int): Time {
    Min(cfg.retryInitial * Pow2(if attempt > 1 then attempt - 1 else 0), cfg.retryMax)
  }

  predicate Jitter(jitter: real) { 0.8 <= jitter < 1.2 }

  function Product(delay: Time, jitter: real): real { delay as real * jitter }

  method RetryDelay(cfg: Policy, attempt: int, jitter: real) returns (delay: Time)
    requires ValidPolicy(cfg) && Jitter(jitter)
    ensures 1 <= Backoff(cfg, attempt) <= cfg.retryMax
    ensures delay == ToInt64(Product(Backoff(cfg, attempt), jitter), cfg.overflow)
  {
    var power := Pow2(if attempt > 1 then attempt - 1 else 0);
    var raw := cfg.retryInitial * power;
    assert raw >= cfg.retryInitial by { Grows(cfg.retryInitial, power); }
    delay := ToInt64(raw as real, cfg.overflow);
    if delay > cfg.retryMax || delay < 0 { delay := cfg.retryMax; }
    assert delay == Backoff(cfg, attempt);
    delay := ToInt64(Product(delay, jitter), cfg.overflow);
  }

  lemma Grows(x: int, power: nat)
    requires x > 0 && power >= 1
    ensures x * power >= x
  {}

  // `x` lies between 0.8 and 1.2 times the delay.
  predicate Near(x: real, backoff: Time) { 0.8 * backoff as real <= x <= 1.2 * backoff as real }

  lemma JitterKeepsNear(backoff: Time, jitter: real)
    requires Jitter(jitter) && backoff >= 1
    ensures Near(Product(backoff, jitter), backoff)
  {
    Monotone(backoff as real, 0.8, jitter);
    Monotone(backoff as real, jitter, 1.2);
  }

  lemma Monotone(c: real, x: real, y: real)
    requires c >= 0.0 && x <= y
    ensures c * x <= c * y
  {}

  lemma ConvertedIsNear(cfg: Policy, backoff: Time, x: real)
    requires ValidPolicy(cfg) && 1 <= backoff <= cfg.retryMax && Near(x, backoff)
    ensures var delay := ToInt64(x, cfg.overflow);
            (4 * backoff / 5 <= delay && 5 * delay <= 6 * backoff)
            <==> (x < (MAX_INT64 + 1) as real || cfg.overflow == MAX_INT64)
  {}

  // A retry waits between 0.8 and 1.2 times the backoff -- exactly when the jittered delay fits into 64 bits
  // or the processor saturates.
  lemma DelayIsJitteredBackoff(cfg: Policy, backoff: Time, jitter: real)
    requires ValidPolicy(cfg) && Jitter(jitter) && 1 <= backoff <= cfg.retryMax
    ensures var delay := ToInt64(Product(backoff, jitter), cfg.overflow);
            (4 * backoff / 5 <= delay && 5 * delay <= 6 * backoff)
            <==> (Product(backoff, jitter) < (MAX_INT64 + 1) as real || cfg.overflow == MAX_INT64)
  {
    JitterKeepsNear(backoff, jitter);
    ConvertedIsNear(cfg, backoff, Product(backoff, jitter));
  }

  // With RetryMax up to 243 years every delay fits.
  lemma DelayFits(cfg: Policy, backoff: Time, jitter: real)
    requires ValidPolicy(cfg) && Jitter(jitter) && 1 <= backoff <= cfg.retryMax && 6 * cfg.retryMax <= 5 * MAX_INT64
    ensures Product(backoff, jitter) < (MAX_INT64 + 1) as real
  {
    JitterKeepsNear(backoff, jitter);
  }

  const LONGEST: Policy := Policy(MAX_INT64, MAX_INT64, 1, MIN_INT64)

  // A longer one may not: on a processor that does not saturate the delay becomes negative.
  lemma LongDelayIsNegative()
    ensures ValidPolicy(LONGEST) && Jitter(1.1) && Backoff(LONGEST, 1) == MAX_INT64
    ensures ToInt64(Product(Backoff(LONGEST, 1), 1.1), LONGEST.overflow) == MIN_INT64
  {
    assert Pow2(0) == 1;
  }

  // No live row waits longer than this for its next attempt; half a microsecond is lost to the interval literal.
  function DueBound(cfg: Policy): Time {
    var longest := 6 * cfg.retryMax / 5 + 500;
    if longest < LEASE then LEASE else longest
  }

  lemma ConvertedWithinBound(cfg: Policy, backoff: Time, x: real)
    requires ValidPolicy(cfg) && 1 <= backoff <= cfg.retryMax && Near(x, backoff)
    ensures RoundToMicros(ToInt64(x, cfg.overflow)) <= DueBound(cfg)
  {}

  lemma DelayWithinBound(cfg: Policy, backoff: Time, jitter: real)
    requires ValidPolicy(cfg) && Jitter(jitter) && 1 <= backoff <= cfg.retryMax
    ensures RoundToMicros(ToInt64(Product(backoff, jitter), cfg.overflow)) <= DueBound(cfg)
  {
    JitterKeepsNear(backoff, jitter);
    ConvertedWithinBound(cfg, backoff, Product(backoff, jitter));
  }

  // When RetryMax is a multiple of five microseconds not even that is lost.
  lemma DelayWithinExactBound(cfg: Policy, backoff: Time, jitter: real)
    requires ValidPolicy(cfg) && Jitter(jitter) && 1 <= backoff <= cfg.retryMax && cfg.retryMax % 5000 == 0
    requires 6 * cfg.retryMax <= 5 * MAX_INT64
    ensures RoundToMicros(ToInt64(Product(backoff, jitter), cfg.overflow)) <= 6 * cfg.retryMax / 5
  {
    DelayFits(cfg, backoff, jitter);
    DelayIsJitteredBackoff(cfg, backoff, jitter);
    RoundingStaysBelow(ToInt64(Product(backoff, jitter), cfg.overflow), cfg.retryMax);
  }

  lemma RoundingStaysBelow(delay: Time, longest: Time)
    requires longest % 5000 == 0 && 5 * delay <= 6 * longest
    ensures RoundToMicros(delay) <= 6 * longest / 5
  {
    var k := longest / 5000;
    assert 6 * longest / 5 == 6 * k * MICROSECOND;
  }

  // ---- claiming ----

  ghost function Due(outbox: map<Id, OutboxRow>, now: Time): set<Id> {
    set id | id in outbox && Claimable(outbox[id], now)
  }

  // ORDER BY next_attempt_at, created_at
  predicate NotAfter(outbox: map<Id, OutboxRow>, a: Id, b: Id) {
    && a in outbox && b in outbox
    && (outbox[a].nextAttemptAt < outbox[b].nextAttemptAt
        || (outbox[a].nextAttemptAt == outbox[b].nextAttemptAt && outbox[a].createdAt <= outbox[b].createdAt))
  }

  lemma FirstExists(outbox: map<Id, OutboxRow>, ids: set<Id>)
    requires ids != {} && ids <= outbox.Keys
    ensures exists id: Id :: id in ids && forall other | other in ids :: NotAfter(outbox, id, other)
  {
    var notAfter := (a, b) => NotAfter(outbox, a, b);
    Counting.FirstExists(ids, notAfter);
    var first: Id :| Counting.First(first, ids, notAfter);
    assert forall other | other in ids :: NotAfter(outbox, first, other);
  }

  // The claimed rows are the first due ones, as many as the limit allows.
  ghost predicate ClaimsFirst(outbox: map<Id, OutboxRow>, now: Time, limit: nat, ids: set<Id>) {
    && ids <= Due(outbox, now) && |ids| == Min(limit, |Due(outbox, now)|)
    && forall a, b | a in ids && b in Due(outbox, now) - ids :: NotAfter(outbox, a, b)
  }

  // `ids` were selected from what is due, first ones first, and `left` is what remains.
  ghost predicate Selected(outbox: map<Id, OutboxRow>, due: set<Id>, ids: set<Id>, left: set<Id>) {
    && ids + left == due && ids !! left && |due| == |ids| + |left|
    && forall a, b | a in ids && b in left :: NotAfter(outbox, a, b)
  }

  lemma SelectNext(outbox: map<Id, OutboxRow>, due: set<Id>, ids: set<Id>, left: set<Id>, id: Id)
    requires Selected(outbox, due, ids, left) && id in left
             && forall other | other in left :: NotAfter(outbox, id, other)
    ensures Selected(outbox, due, ids + {id}, left - {id})
  {}

  lemma SelectedClaims(outbox: map<Id, OutboxRow>, now: Time, batch: nat, ids: set<Id>, left: set<Id>)
    requires Selected(outbox, Due(outbox, now), ids, left) && |ids| <= batch && (|ids| == batch || left == {})
    ensures ClaimsFirst(outbox, now, batch, ids)
  {
    assert Due(outbox, now) - ids == left;
  }

  // ---- steps in time ----

  datatype Timed = Timed(step: PublisherStep, at: Time)

  function RunPublisher(outbox: map<Id, OutboxRow>, steps: seq<Timed>): map<Id, OutboxRow>
    decreases |steps|
  {
    if steps == [] then outbox
    else PublisherNext(RunPublisher(outbox, steps[..|steps| - 1]), steps[|steps| - 1].step, steps[|steps| - 1].at)
  }

  lemma RunAppend(outbox: map<Id, OutboxRow>, steps: seq<Timed>, step: PublisherStep, at: Time)
    ensures RunPublisher(outbox, steps + [Timed(step, at)]) == PublisherNext(RunPublisher(outbox, steps), step, at)
  {}

  predicate StepsEnabled(steps: seq<Timed>, bound: Time) {
    forall i | 0 <= i < |steps| :: PublisherEnabled(steps[i].step, bound)
  }

  // What became of one message: decrypted and sent or not, when, and with which jitter.
  datatype Attempt = Attempt(decrypted: bool, sent: bool, at: Time, jitter: real)

  class OutboxPublisher {
    const cfg: Policy
    const messages: MessageTables

    constructor (cfg: Policy, messages: MessageTables)
      ensures this.cfg == cfg && this.messages == messages
    {
      this.cfg, this.messages := cfg, messages;
    }

    method ExpireDueRows(now: Time)
      modifies messages
      ensures messages.outbox == ExpireOutbox(old(messages.outbox), now) && messages.inbox == old(messages.inbox)
    {
      messages.outbox := map id | id in messages.outbox ::
        var row := messages.outbox[id];
        if row.status != Confirmed && row.status != Dead && row.expiresAt <= now then
          row.(status := Dead, leaseUntil := None, lastErrorCode := Some("EXPIRED"))
        else row;
    }

    method SelectDue(now: Time) returns (ids: set<Id>)
      ensures ClaimsFirst(messages.outbox, now, cfg.batch, ids)
    {
      ids := {};
      var left := set id | id in messages.outbox && Claimable(messages.outbox[id], now);
      assert left == Due(messages.outbox, now);
      while |ids| < cfg.batch && left != {}
        invariant |ids| <= cfg.batch && left <= messages.outbox.Keys
        invariant Selected(messages.outbox, Due(messages.outbox, now), ids, left)
        decreases left
      {
        FirstExists(messages.outbox, left);
        var id: Id :| id in left && forall other | other in left :: NotAfter(messages.outbox, id, other);
        SelectNext(messages.outbox, Due(messages.outbox, now), ids, left, id);
        ids, left := ids + {id}, left - {id};
      }
      SelectedClaims(messages.outbox, now, cfg.batch, ids, left);
    }

    method Claim(now: Time) returns (ids: set<Id>)
      modifies messages
      ensures ClaimsFirst(old(messages.outbox), now, cfg.batch, ids)
      ensures messages.outbox == Messages.Claim(old(messages.outbox), ids, now) && messages.inbox == old(messages.inbox)
    {
      ids := SelectDue(now);
      messages.outbox := map id | id in messages.outbox ::
        if id in ids then messages.outbox[id].(status := Publishing,
                          leaseUntil := Some(now + 30 * SECOND)) else messages.outbox[id];
    }

    // The step is the mark that is made when the worker gets to it, however late.
    method PublishOne(id: Id, attempts: nat, attempt: Attempt) returns (ghost step: PublisherStep)
      requires ValidPolicy(cfg) && Jitter(attempt.jitter)
      modifies messages
      ensures PublisherEnabled(step, DueBound(cfg))
      ensures step.RetryMark? <==> !attempt.decrypted || !attempt.sent
      ensures messages.outbox == PublisherNext(old(messages.outbox), step, attempt.at)
      ensures messages.inbox == old(messages.inbox)
    {
      var delay := RetryDelay(cfg, attempts + 1, attempt.jitter);
      assert RoundToMicros(delay) <= DueBound(cfg) by { DelayWithinBound(cfg, Backoff(cfg, attempts + 1),
                                                                         attempt.jitter); }
      step := Mark(id, attempt, delay);
    }

    method Mark(id: Id, attempt: Attempt, delay: Time) returns (ghost step: PublisherStep)
      modifies messages
      ensures step.RetryMark? || step.PublishedMark?
      ensures step.delay == delay && (step.RetryMark? <==> !attempt.decrypted || !attempt.sent)
      ensures messages.outbox == PublisherNext(old(messages.outbox), step, attempt.at)
      ensures messages.inbox == old(messages.inbox)
    {
      if !attempt.decrypted || !attempt.sent {
        var code := if !attempt.decrypted then "OUTBOX_DECRYPT_FAILED" else "NATS_PUBLISH_FAILED";
        MarkRetry(id, attempt.at, delay, code);
        return RetryMark(id, delay, code);
      }
      MarkPublished(id, attempt.at, delay);
      return PublishedMark(id, delay);
    }

    method MarkRetry(id: Id, now: Time, delay: Time, code: string)
      modifies messages
      ensures messages.outbox == Messages.MarkRetry(old(messages.outbox), id, now, delay, code)
      ensures messages.inbox == old(messages.inbox)
    {
      if id in messages.outbox && messages.outbox[id].status == Publishing {
        var row := messages.outbox[id];
        messages.outbox := messages.outbox[id := row.(status := Pending, attempts := row.attempts + 1,
        nextAttemptAt := now + RoundToMicros(delay), leaseUntil := None, lastErrorCode := Some(code))];
      }
    }

    method MarkPublished(id: Id, now: Time, delay: Time)
      modifies messages
      ensures messages.outbox == Messages.MarkPublished(old(messages.outbox), id, now, delay)
      ensures messages.inbox == old(messages.inbox)
    {
      if id in messages.outbox && messages.outbox[id].status == Publishing {
        var row := messages.outbox[id];
        messages.outbox := messages.outbox[id := row.(status := Published, attempts := row.attempts + 1,
        publishedAt := Some(now),
        nextAttemptAt := now + RoundToMicros(delay), leaseUntil := None, lastErrorCode := None)];
      }
    }

    // Every claimed message is published once, in any order.
    method PublishClaimed(ids: set<Id>, fate: Id -> Attempt) returns (ghost steps: seq<Timed>)
      requires ValidPolicy(cfg) && ids <= messages.outbox.Keys && forall id :: Jitter(fate(id).jitter)
      modifies messages
      ensures messages.outbox == RunPublisher(old(messages.outbox), steps) && messages.inbox == old(messages.inbox)
      ensures StepsEnabled(steps, DueBound(cfg)) && |steps| == |ids|
    {
      steps := [];
      var attempts := map id | id in ids :: messages.outbox[id].attempts;
      var left := ids;
      while left != {}
        invariant left <= ids && messages.inbox == old(messages.inbox) && |steps| == |ids| - |left|
        invariant messages.outbox == RunPublisher(old(messages.outbox), steps) && StepsEnabled(steps, DueBound(cfg))
        decreases left
      {
        var id :| id in left;
        ghost var step := PublishOne(id, attempts[id], fate(id));
        RunAppend(old(messages.outbox), steps, step, fate(id).at);
        steps := steps + [Timed(step, fate(id).at)];
        left := left - {id};
      }
    }

    // Expire, claim, publish: whatever becomes of each message, the batch amounts to enabled publisher steps.
    method PublishBatch(now: Time, claimedAt: Time, fate: Id -> Attempt) returns (ghost ids: set<Id>,
                                                                                  ghost marks: seq<Timed>)
      requires ValidPolicy(cfg) && forall id :: Jitter(fate(id).jitter)
      modifies messages
      ensures var expired := ExpireOutbox(old(messages.outbox), now);
              && ClaimsFirst(expired, claimedAt, cfg.batch, ids)
              && messages.outbox == RunPublisher(Messages.Claim(expired, ids, claimedAt), marks)
      ensures StepsEnabled(marks, DueBound(cfg)) && |marks| == |ids| && messages.inbox == old(messages.inbox)
    {
      ExpireDueRows(now);
      var claimed := Claim(claimedAt);
      ids := claimed;
      marks := PublishClaimed(claimed, fate);
    }
  }

  // Any such steps, of any number of workers, keep every live row due within the bound and settled rows settled.
  lemma {:induction false} PublishersKeepRows(outbox: map<Id, OutboxRow>, steps: seq<Timed>, start: Time, bound: Time)
    requires OutboxOk(outbox, start, bound) && LEASE <= bound && StepsEnabled(steps, bound)
    requires forall i | 0 <= i < |steps| :: start <= steps[i].at
                                            && forall j | i <= j < |steps| :: steps[i].at <= steps[j].at
    ensures var end := if steps == [] then start else steps[|steps| - 1].at;
            OutboxOk(RunPublisher(outbox, steps), end, bound) && Evolves(outbox, RunPublisher(outbox, steps))
    decreases |steps|
  {
    if steps != [] {
      var k := |steps| - 1;
      PublishersKeepRows(outbox, steps[..k], start, bound);
      var before := RunPublisher(outbox, steps[..k]);
      TimePasses(before, if k == 0 then start else steps[k - 1].at, steps[k].at, bound);
      PublisherKeepsRows(before, steps[k].step, steps[k].at, bound);
      EvolvesTransitive(outbox, before, RunPublisher(outbox, steps));
    }
  }
}
