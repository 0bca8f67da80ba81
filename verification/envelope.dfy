// The byte string that an envelope signature covers.
module EnvelopeSigning {
  import opened Base
  import opened Binary
  import Amount

  type Bytes = seq<byte>

  // "RW-NATS-SIGNED-V1"
  const SIGNING_LABEL: Bytes := [0x52, 0x57, 0x2D, 0x4E, 0x41, 0x54, 0x53, 0x2D, 0x53, 0x49, 0x47, 0x4E, 0x45, 0x44,
                                 0x2D, 0x56, 0x31]

  datatype Envelope = Envelope(
    version: int, messageId: Bytes, messageType: Bytes, subject: Bytes, producer: Bytes, keyId: Bytes,
    occurredAt: Bytes, expiresAt: Bytes, correlationId: Bytes, causationId: Bytes, contentType: Bytes)

  // strconv.Itoa as bytes
  function Itoa(n: int): Bytes {
    var text := Amount.FormatInt(n);
    seq(|text|, i requires 0 <= i < |text| => text[i] as int % 256)
  }

  function Parts(env: Envelope, payload: Bytes): (parts: seq<Bytes>)
    ensures |parts| == 12
  {
    [Itoa(env.version), env.messageId, env.messageType, env.subject, env.producer, env.keyId, env.occurredAt,
     env.expiresAt, env.correlationId, env.causationId, env.contentType, payload]
  }

  // Each part is preceded by its length in eight big-endian bytes.
  function Framed(parts: seq<Bytes>): Bytes {
    if parts == [] then [] else PutUint(|parts[0]|, 8) + parts[0] + Framed(parts[1..])
  }

  function FramedSize(parts: seq<Bytes>): nat {
    if parts == [] then 0 else 8 + |parts[0]| + FramedSize(parts[1..])
  }

  // Reads frames until the input is used up.
  function Unframe(input: Bytes): Option<seq<Bytes>>
    decreases |input|
  {
    if input == [] then Some([])
    else if |input| < 8 then None
    else
      var length := Uint(input[..8]);
      if |input| - 8 < length then None
      else match Unframe(input[8 + length..])
           case None => None
           case Some(rest) => Some([input[8..8 + length]] + rest)
  }

  function ParseSigningInput(input: Bytes): Option<seq<Bytes>> {
    if SIGNING_LABEL <= input then Unframe(input[|SIGNING_LABEL|..]) else None
  }

  // Go slices are shorter than 2^63 bytes.
  predicate Representable(parts: seq<Bytes>) {
    forall part | part in parts :: |part| <= Amount.MAX_INT64
  }

  method SigningInput(env: Envelope, payload: Bytes) returns (result: Bytes, capacity: nat)
    requires Representable(Parts(env, payload))
    ensures result == SIGNING_LABEL + Framed(Parts(env, payload))
    ensures |result| == capacity
    ensures ParseSigningInput(result) == Some(Parts(env, payload))
  {
    var parts := Parts(env, payload);
    SigningInputParses(parts);
    FramedLength(parts);
    capacity := Size(SIGNING_LABEL, parts);
    result := AppendParts(SIGNING_LABEL, parts);
  }

  method Size(prefix: Bytes, parts: seq<Bytes>) returns (size: nat)
    ensures size == |prefix| + FramedSize(parts)
  {
    size := |prefix|;
    var i := 0;
    while i < |parts|
      invariant i <= |parts|
      invariant size == |prefix| + FramedSize(parts[..i])
    {
      FramedSizeSnoc(parts[..i], parts[i]);
      assert parts[..i + 1] == parts[..i] + [parts[i]];
      size := size + 8 + |parts[i]|;
      i := i + 1;
    }
    assert parts[..i] == parts;
  }

  method AppendParts(prefix: Bytes, parts: seq<Bytes>) returns (result: Bytes)
    ensures result == prefix + Framed(parts)
  {
    result := prefix;
    var i := 0;
    while i < |parts|
      invariant i <= |parts|
      invariant result == prefix + Framed(parts[..i])
    {
      FramedSnoc(parts[..i], parts[i]);
      assert parts[..i + 1] == parts[..i] + [parts[i]];
      var length := PutUint(|parts[i]|, 8);
      result := result + length;
      result := result + parts[i];
      i := i + 1;
    }
    assert parts[..i] == parts;
  }

  lemma {:induction false} FramedSnoc(parts: seq<Bytes>, last: Bytes)
    ensures Framed(parts + [last]) == Framed(parts) + (PutUint(|last|, 8) + last)
  {
    if parts == [] {
      assert [last][1..] == [] && [] + [last] == [last];
      FramedHead([last]);
    } else {
      assert (parts + [last])[1..] == parts[1..] + [last];
      FramedSnoc(parts[1..], last);
      FramedHead(parts);
      FramedHead(parts + [last]);
    }
  }

  lemma FramedHead(parts: seq<Bytes>)
    requires parts != []
    ensures Framed(parts) == PutUint(|parts[0]|, 8) + parts[0] + Framed(parts[1..])
  {}

  lemma {:induction false} FramedSizeSnoc(parts: seq<Bytes>, last: Bytes)
    ensures FramedSize(parts + [last]) == FramedSize(parts) + 8 + |last|
  {
    if parts != [] {
      FramedSizeSnoc(parts[1..], last);
      assert (parts + [last])[1..] == parts[1..] + [last];
    }
  }

  lemma {:induction false} FramedLength(parts: seq<Bytes>)
    ensures |Framed(parts)| == FramedSize(parts)
  {
    if parts != [] { FramedLength(parts[1..]); }
  }

  lemma UnframeOne(first: Bytes, tail: Bytes)
    requires |first| <= Amount.MAX_INT64
    ensures Unframe(PutUint(|first|, 8) + first + tail) ==
            match Unframe(tail) { case None => None case Some(rest) => Some([first] + rest) }
  {
    var prefix := PutUint(|first|, 8);
    var input := prefix + first + tail;
    assert input[..8] == prefix;
    Pow256Of8();
    PutUintRoundTrip(|first|, 8);
    assert input[8..8 + |first|] == first;
    assert input[8 + |first|..] == tail;
  }

  lemma {:induction false} UnframeInverts(parts: seq<Bytes>)
    requires Representable(parts)
    ensures Unframe(Framed(parts)) == Some(parts)
  {
    if parts != [] {
      var first, rest := parts[0], parts[1..];
      assert forall part | part in rest :: part in parts;
      UnframeInverts(rest);
      UnframeOne(first, Framed(rest));
      assert [first] + rest == parts;
    }
  }

  lemma SigningInputParses(parts: seq<Bytes>)
    requires Representable(parts)
    ensures ParseSigningInput(SIGNING_LABEL + Framed(parts)) == Some(parts)
  {
    UnframeInverts(parts);
    assert (SIGNING_LABEL + Framed(parts))[|SIGNING_LABEL|..] == Framed(parts);
  }

  lemma SameBytesSameText(a: string, b: string)
    requires |a| == |b| && forall i | 0 <= i < |a| :: a[i] as int == b[i] as int
    ensures a == b
  {}

  lemma FormatIntIsInjective(m: int, n: int)
    requires Amount.FormatInt(m) == Amount.FormatInt(n)
    ensures m == n
  {
    FormatIntBytes(m);
    FormatIntBytes(n);
    if m < 0 { assert Amount.FormatInt(m)[1..] == Amount.FormatNat(-m)
                      && Amount.FormatInt(n)[1..] == Amount.FormatNat(-n); }
  }

  lemma ItoaBytes(n: int)
    ensures var text := Amount.FormatInt(n);
            |Itoa(n)| == |text| && forall i | 0 <= i < |text| :: Itoa(n)[i] == text[i] as int
  {
    FormatIntBytes(n);
  }

  lemma ItoaIsInjective(m: int, n: int)
    requires Itoa(m) == Itoa(n)
    ensures m == n
  {
    var a, b, bytes := Amount.FormatInt(m), Amount.FormatInt(n), Itoa(m);
    ItoaBytes(m);
    ItoaBytes(n);
    assert forall i | 0 <= i < |a| :: bytes[i] == a[i] as int && bytes[i] == b[i] as int;
    SameBytesSameText(a, b);
    FormatIntIsInjective(m, n);
  }

  lemma FormatIntBytes(n: int)
    ensures var text := Amount.FormatInt(n);
            |text| > 0 && (forall i | 0 <= i < |text| :: text[i] as int < 256) && ((text[0] == '-') <==> n < 0)
    ensures n >= 0 ==> Amount.Digits(Amount.FormatNat(n)) && Amount.DigitsValue(Amount.FormatNat(n)) == n
    ensures n < 0 ==> Amount.Digits(Amount.FormatNat(-n)) && Amount.DigitsValue(Amount.FormatNat(-n)) == -n
  {
    Amount.FormatNatReadsBack(if n < 0 then -n else n);
  }

  // Equal signing inputs come from equal fields and payloads.
  lemma SigningInputIsInjective(a: Envelope, p: Bytes, b: Envelope, q: Bytes)
    requires Representable(Parts(a, p)) && Representable(Parts(b, q))
    requires SIGNING_LABEL + Framed(Parts(a, p)) == SIGNING_LABEL + Framed(Parts(b, q))
    ensures a == b && p == q
  {
    SigningInputParses(Parts(a, p));
    SigningInputParses(Parts(b, q));
    var x, y := Parts(a, p), Parts(b, q);
    assert x == y;
    assert forall i | 0 <= i < 12 :: x[i] == y[i];
    ItoaIsInjective(a.version, b.version);
  }
}
