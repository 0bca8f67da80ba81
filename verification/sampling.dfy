// Rejection sampling of the activation amount (randomMinor).
module Sampling {
  import opened Amount
  import opened Binary

  const MIN_INT64: int := -0x8000_0000_0000_0000
  const HALF: int := 0x8000_0000_0000_0000

  predicate IsInt64(x: int) { MIN_INT64 <= x <= MAX_INT64 }

  // Go's wrap-around conversions.
  function ToUint64(x: int): (r: nat) ensures r < TWO_64 { x % TWO_64 }

  function ToInt64(x: int): (r: int)
    ensures IsInt64(r)
    ensures IsInt64(x) ==> r == x
  {
    var m := x % TWO_64;
    if m > MAX_INT64 then m - TWO_64 else m
  }

  function Span(minimum: int, maximum: int): (span: nat) {
    ToUint64(ToUint64(ToInt64(maximum - minimum)) + 1)
  }

  function Limit(span: nat): (limit: int)
    requires span > 0
  {
    (TWO_64 - 1) - (TWO_64 - 1) % span
  }

  function Pick(minimum: int, span: nat, value: nat): int
    requires span > 0
  {
    ToInt64(minimum + ToInt64(value % span))
  }

  datatype Outcome = Value(minor: int) | InvalidRange | DivisionByZero | ReadError

  // The first draw below the limit decides.
  function FirstAccepted(draws: seq<seq<byte>>, limit: int): (i: nat)
    ensures i <= |draws|
    ensures forall j | 0 <= j < i :: Uint(draws[j]) >= limit
    ensures i < |draws| ==> Uint(draws[i]) < limit
  {
    if draws == [] || Uint(draws[0]) < limit then 0 else FirstAccepted(draws[1..], limit) + 1
  }

  lemma {:induction false} FirstAcceptedIs(draws: seq<seq<byte>>, limit: int, i: nat)
    requires i <= |draws| && (forall j | 0 <= j < i :: Uint(draws[j]) >= limit)
    requires i < |draws| ==> Uint(draws[i]) < limit
    ensures FirstAccepted(draws, limit) == i
  {
    if i > 0 {
      assert forall j | 0 <= j < i - 1 :: draws[1..][j] == draws[j + 1];
      FirstAcceptedIs(draws[1..], limit, i - 1);
    }
  }

  method DrawBelow(draws: seq<seq<byte>>, limit: int) returns (next: nat)
    ensures next == FirstAccepted(draws, limit)
  {
    next := 0;
    while next < |draws| && Uint(draws[next]) >= limit
      invariant next <= |draws| && forall j | 0 <= j < next :: Uint(draws[j]) >= limit
    {
      next := next + 1;
    }
    FirstAcceptedIs(draws, limit, next);
  }

  // What the first accepted draw is worth.
  function Sampled(minimum: int, span: nat, draws: seq<seq<byte>>): Outcome
    requires span > 0
  {
    var i := FirstAccepted(draws, Limit(span));
    if i == |draws| then ReadError else Value(Pick(minimum, span, Uint(draws[i])))
  }

  method Sample(minimum: int, span: nat, draws: seq<seq<byte>>) returns (r: Outcome)
    requires span > 0
    ensures r == Sampled(minimum, span, draws)
  {
    var limit := (TWO_64 - 1) - (TWO_64 - 1) % span;
    var next := DrawBelow(draws, limit);
    if next == |draws| { return ReadError; }
    var value := Uint(draws[next]);
    return Value(ToInt64(minimum + ToInt64(value % span)));
  }

  // `draws` are the buffers the random source will deliver; running out of them is its error.
  method RandomMinor(minimum: int, maximum: int, draws: seq<seq<byte>>) returns (r: Outcome)
    requires IsInt64(minimum) && IsInt64(maximum)
    requires forall draw | draw in draws :: |draw| == 8
    ensures minimum > maximum <==> r == InvalidRange
    ensures (minimum == MIN_INT64 && maximum == MAX_INT64) <==> r == DivisionByZero
    ensures r.Value? ==> minimum <= r.minor <= maximum
    ensures minimum <= maximum && !(minimum == MIN_INT64 && maximum == MAX_INT64) ==>
              r == Drawn(minimum, maximum, draws)
  {
    if minimum > maximum { return InvalidRange; }
    SpanIsExact(minimum, maximum);
    var span := ToUint64(ToUint64(ToInt64(maximum - minimum)) + 1);
    if span == 0 { return DivisionByZero; }
    r := Sample(minimum, span, draws);
    SampledIsDrawn(minimum, maximum, draws);
  }

  // The same without wrap-around: minimum plus the remainder of the first draw below the limit.
  function Drawn(minimum: int, maximum: int, draws: seq<seq<byte>>): Outcome
    requires minimum <= maximum
  {
    var span := maximum - minimum + 1;
    var i := FirstAccepted(draws, Limit(span));
    if i == |draws| then ReadError else Value(minimum + Uint(draws[i]) % span)
  }

  lemma SampledIsDrawn(minimum: int, maximum: int, draws: seq<seq<byte>>)
    requires IsInt64(minimum) && IsInt64(maximum) && minimum <= maximum
    requires !(minimum == MIN_INT64 && maximum == MAX_INT64)
    ensures Sampled(minimum, maximum - minimum + 1, draws) == Drawn(minimum, maximum, draws)
    ensures var r := Drawn(minimum, maximum, draws); r.Value? ==> minimum <= r.minor <= maximum
  {
    SpanIsExact(minimum, maximum);
    var i := FirstAccepted(draws, Limit(maximum - minimum + 1));
    if i < |draws| { PickIsExact(minimum, maximum, Uint(draws[i])); }
  }

  // The wrapped subtraction still yields the true span; it is zero only on the full int64 range.
  lemma SpanIsExact(minimum: int, maximum: int)
    requires IsInt64(minimum) && IsInt64(maximum) && minimum <= maximum
    ensures Span(minimum, maximum) ==
            if minimum == MIN_INT64 && maximum == MAX_INT64 then 0 else maximum - minimum + 1
  {}

  // No value outside the range, and the wrapped additions are exact.
  lemma PickIsExact(minimum: int, maximum: int, value: nat)
    requires IsInt64(minimum) && IsInt64(maximum) && minimum <= maximum
    requires Span(minimum, maximum) > 0
    ensures var span := Span(minimum, maximum);
            Pick(minimum, span, value) == minimum + value % span && minimum <= Pick(minimum, span, value) <= maximum
  {
    SpanIsExact(minimum, maximum);
    var r := value % Span(minimum, maximum);
    assert minimum <= minimum + r <= maximum;
    WrapAdd(minimum, r);
  }

  lemma WrapAdd(minimum: int, r: nat)
    requires IsInt64(minimum) && IsInt64(minimum + r) && r < TWO_64
    ensures ToInt64(minimum + ToInt64(r)) == minimum + r
  {}

  lemma {:induction false} ModOfMultiple(k: nat, span: nat, r: nat)
    requires r < span
    ensures (k * span + r) % span == r && (k * span + r) / span == k
  {
    if k > 0 {
      ModOfMultiple(k - 1, span, r);
      var x := (k - 1) * span + r;
      assert k * span + r == x + span;
      assert x == span * (k - 1) + r;
      DivStep(x, span);
    }
  }

  lemma DivStep(x: nat, span: nat)
    requires span > 0
    ensures (x + span) / span == x / span + 1 && (x + span) % span == x % span
  {
    var q, m := (x + span) / span, (x + span) % span;
    assert x == span * (x / span) + x % span;
    assert x + span == span * q + m;
    var d := q - (x / span + 1);
    assert span * d == x % span - m by {
      assert span * d == span * q - span * (x / span) - span;
    }
    assert d >= 1 ==> span * d >= span;
    assert d <= -1 ==> span * d + span <= 0;
  }

  // The limit is a positive multiple of the span; it exceeds half of 2^64 except for a span of exactly 2^63.
  lemma LimitProperties(span: nat)
    requires 0 < span < TWO_64
    ensures 0 < Limit(span) <= TWO_64 - 1 && Limit(span) % span == 0
    ensures Limit(span) == (TWO_64 - 1) / span * span
    ensures Limit(span) > HALF <==> span != HALF
    ensures Limit(span) >= HALF
  {
    var m := TWO_64 - 1;
    var q := m / span;
    assert m == span * q + m % span;
    assert Limit(span) == q * span;
    assert q == 0 ==> span * q == 0;
    assert q >= 1;
    ModOfMultiple(q, span, 0);
    if span > HALF {
      assert q >= 2 ==> span * q >= 2 * span;
      assert q * span >= span;
    }
  }

  // What configuration admits: the limit exceeds half of 2^64 unless every non-negative amount may be drawn.
  lemma ConfiguredLimit(minimum: int, maximum: int)
    requires 0 <= minimum <= maximum <= MAX_INT64
    ensures var span := Span(minimum, maximum);
            && span == maximum - minimum + 1
            && (Limit(span) > HALF <==> !(minimum == 0 && maximum == MAX_INT64))
  {
    SpanIsExact(minimum, maximum);
    LimitProperties(maximum - minimum + 1);
  }

  lemma WidestLimitIsHalf()
    ensures Span(0, MAX_INT64) == HALF && Limit(HALF) == HALF
  {
    SpanIsExact(0, MAX_INT64);
  }

  // Accepted 64-bit values that sample to `minor`.
  ghost function Preimages(minimum: int, span: nat, minor: int): set<nat>
    requires span > 0
  {
    set value: nat | value < Limit(span) && Pick(minimum, span, value) == minor
  }

  function Nth(k: nat, span: nat, r: nat): nat { k * span + r }

  ghost function Progression(count: nat, span: nat, r: nat): set<nat> {
    if count == 0 then {} else Progression(count - 1, span, r) + {Nth(count - 1, span, r)}
  }

  lemma NthIs(k: nat, span: nat, r: nat, x: nat)
    requires r < span
    ensures x == Nth(k, span, r) <==> x % span == r && x / span == k
  {
    ModOfMultiple(k, span, r);
    assert x == x / span * span + x % span;
  }

  lemma {:induction false} ProgressionMembers(count: nat, span: nat, r: nat, x: nat)
    requires r < span
    ensures x in Progression(count, span, r) <==> x % span == r && x / span < count
  {
    if count > 0 {
      ProgressionMembers(count - 1, span, r, x);
      NthIs(count - 1, span, r, x);
    }
  }

  lemma LastIsNew(count: nat, span: nat, r: nat)
    requires r < span && count > 0
    ensures Nth(count - 1, span, r) !in Progression(count - 1, span, r)
  {
    ProgressionMembers(count - 1, span, r, Nth(count - 1, span, r));
    NthIs(count - 1, span, r, Nth(count - 1, span, r));
  }

  lemma {:induction false} ProgressionSize(count: nat, span: nat, r: nat)
    requires r < span
    ensures |Progression(count, span, r)| == count
  {
    if count > 0 {
      ProgressionSize(count - 1, span, r);
      LastIsNew(count, span, r);
    }
  }

  lemma QuotientBelow(count: nat, span: nat, value: nat)
    requires span > 0
    ensures value < count * span <==> value / span < count
  {
    var q := value / span;
    assert value == q * span + value % span;
    assert q >= count ==> q * span >= count * span;
    assert q < count ==> (q + 1) * span <= count * span;
  }

  lemma PreimagesAreProgression(minimum: int, maximum: int, minor: int, count: nat)
    requires IsInt64(minimum) && IsInt64(maximum) && minimum <= minor <= maximum
    requires Span(minimum, maximum) == maximum - minimum + 1
    requires Limit(maximum - minimum + 1) == count * (maximum - minimum + 1)
    ensures var span := maximum - minimum + 1;
            Preimages(minimum, span, minor) == Progression(count, span, minor - minimum)
  {
    var span := maximum - minimum + 1;
    forall value: nat
      ensures value in Preimages(minimum, span, minor) <==> value in Progression(count, span, minor - minimum)
    {
      PreimageShape(minimum, maximum, minor, count, value);
    }
  }

  lemma LimitCounts(span: nat) returns (count: nat)
    requires 0 < span < TWO_64
    ensures Limit(span) == count * span && Limit(span) / span == count
    ensures Limit(span) == Limit(span) / span * span
  {
    count := (TWO_64 - 1) / span;
    LimitProperties(span);
    ModOfMultiple(count, span, 0);
  }

  // Exactly uniform: every value of the range has limit/span accepted preimages.
  lemma SamplingIsUniform(minimum: int, maximum: int, minor: int)
    requires IsInt64(minimum) && IsInt64(maximum) && minimum <= minor <= maximum
    requires !(minimum == MIN_INT64 && maximum == MAX_INT64)
    ensures var span := maximum - minimum + 1;
            Span(minimum, maximum) == span && Limit(span) == Limit(span) / span * span &&
            |Preimages(minimum, span, minor)| == Limit(span) / span
  {
    SpanIsExact(minimum, maximum);
    var count := LimitCounts(maximum - minimum + 1);
    var span, r := maximum - minimum + 1, minor - minimum;
    PreimagesAreProgression(minimum, maximum, minor, count);
    SizeOfProgression(Preimages(minimum, span, minor), count, span, r);
  }

  lemma SizeOfProgression(terms: set<nat>, count: nat, span: nat, r: nat)
    requires r < span && terms == Progression(count, span, r)
    ensures |terms| == count
  {
    ProgressionSize(count, span, r);
  }

  lemma PreimageShape(minimum: int, maximum: int, minor: int, count: nat, value: nat)
    requires IsInt64(minimum) && IsInt64(maximum) && minimum <= minor <= maximum
    requires Span(minimum, maximum) == maximum - minimum + 1
    requires Limit(maximum - minimum + 1) == count * (maximum - minimum + 1)
    ensures var span := maximum - minimum + 1;
            value in Preimages(minimum, span, minor) <==> value in Progression(count, span, minor - minimum)
  {
    var span := maximum - minimum + 1;
    PickIsExact(minimum, maximum, value);
    ProgressionMembers(count, span, minor - minimum, value);
    QuotientBelow(count, span, value);
  }
}
