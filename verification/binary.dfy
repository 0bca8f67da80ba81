// encoding/binary.BigEndian for unsigned integers of a fixed number of bytes.
module Binary {
  type byte = b: int | 0 <= b < 256

  function Pow256(k: nat): (p: nat)
    ensures p >= 1
  {
    if k == 0 then 1 else 256 * Pow256(k - 1)
  }

  function PutUint(v: nat, width: nat): (s: seq<byte>)
    ensures |s| == width
  {
    if width == 0 then [] else PutUint(v / 256, width - 1) + [v % 256]
  }

  function Uint(s: seq<byte>): nat {
    if s == [] then 0 else Uint(s[..|s| - 1]) * 256 + s[|s| - 1]
  }

  lemma {:induction false} PutUintRoundTrip(v: nat, width: nat)
    requires v < Pow256(width)
    ensures Uint(PutUint(v, width)) == v
  {
    if width > 0 {
      PutUintRoundTrip(v / 256, width - 1);
      assert PutUint(v, width)[..width - 1] == PutUint(v / 256, width - 1);
    }
  }

  lemma Pow256Of8()
    ensures Pow256(8) == 0x1_0000_0000_0000_0000
  {}
}
