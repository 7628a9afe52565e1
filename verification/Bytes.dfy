/** Bytes and the fixed-width integers both wire formats are made of. */
module Bytes {

  type byte = x: int | 0 <= x < 256

  function Pow256(k: nat): nat { if k == 0 then 1 else 256 * Pow256(k - 1) }

  /** v as k bytes, most significant first. */
  function ToBig(v: nat, k: nat): (s: seq<byte>)
    ensures |s| == k
  {
    if k == 0 then [] else ToBig(v / 256, k - 1) + [v % 256]
  }

  function FromBig(s: seq<byte>): nat {
    if s == [] then 0 else 256 * FromBig(s[..|s| - 1]) + s[|s| - 1]
  }

  lemma {:induction false} BigRoundTrip(v: nat, k: nat)
    requires v < Pow256(k)
    ensures FromBig(ToBig(v, k)) == v
  {
    if k > 0 {
      BigRoundTrip(v / 256, k - 1);
      assert ToBig(v, k)[..k - 1] == ToBig(v / 256, k - 1);
    }
  }

  /** v as k bytes, least significant first. */
  function ToLittle(v: nat, k: nat): (s: seq<byte>)
    ensures |s| == k
  {
    if k == 0 then [] else [v % 256] + ToLittle(v / 256, k - 1)
  }

  function FromLittle(s: seq<byte>): nat {
    if s == [] then 0 else s[0] + 256 * FromLittle(s[1..])
  }

  lemma {:induction false} LittleRoundTrip(v: nat, k: nat)
    requires v < Pow256(k)
    ensures FromLittle(ToLittle(v, k)) == v
  {
    if k > 0 {
      LittleRoundTrip(v / 256, k - 1);
      assert ToLittle(v, k)[1..] == ToLittle(v / 256, k - 1);
    }
  }

  /** buf holds x at offset o. */
  predicate Holds(buf: seq<byte>, o: nat, x: seq<byte>) {
    o + |x| <= |buf| && buf[o..o + |x|] == x
  }

  /** What is held as one piece is held piece by piece. */
  lemma HoldsSplit(buf: seq<byte>, o: nat, x: seq<byte>, y: seq<byte>)
    requires Holds(buf, o, x + y)
    ensures Holds(buf, o, x) && Holds(buf, o + |x|, y)
  {
    assert buf[o..o + |x|] == (x + y)[..|x|];
    assert buf[o + |x|..o + |x| + |y|] == (x + y)[|x|..];
  }

  function Concat(parts: seq<seq<byte>>): seq<byte> {
    if parts == [] then [] else parts[0] + Concat(parts[1..])
  }
}
