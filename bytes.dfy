/**
 * Bytes and fixed-width integers as the wire sees them: big-endian and
 * little-endian readings of byte strings, the byte strings that encode a
 * number, and the two's-complement view used by signed formats.
 */
module Bytes {

  type byte = x: int | 0 <= x < 256

  function Pow256(n: nat): (r: nat)
    ensures r >= 1
  {
    if n == 0 then 1 else 256 * Pow256(n - 1)
  }

  /** Unsigned big-endian value of `bs` (struct's "!" and unprefixed formats). */
  function FromBE(bs: seq<byte>): (r: nat)
    ensures r < Pow256(|bs|)
  {
    if |bs| == 0 then 0
    else
      var hi := FromBE(bs[..|bs| - 1]);
      var lo := bs[|bs| - 1];
      assert hi * 256 <= (Pow256(|bs| - 1) - 1) * 256;
      hi * 256 + lo
  }

  /** The `w` bytes that encode `n` in big-endian order. */
  function ToBE(n: nat, w: nat): (r: seq<byte>)
    requires n < Pow256(w)
    ensures |r| == w
    ensures FromBE(r) == n
  {
    if w == 0 then []
    else
      var hi := ToBE(n / 256, w - 1);
      var r := hi + [n % 256];
      assert r[..|r| - 1] == hi;
      r
  }

  lemma {:induction false} ToBEFromBE(bs: seq<byte>)
    ensures ToBE(FromBE(bs), |bs|) == bs
  {
    if |bs| > 0 {
      var init := bs[..|bs| - 1];
      var lo := bs[|bs| - 1];
      var hi := FromBE(init);
      var n := FromBE(bs);
      assert n == hi * 256 + lo;
      DivMod256(hi, lo);
      ToBEFromBE(init);
      ToBEUnfold(n, |bs|);
      assert bs == init + [lo];
    }
  }

  lemma ToBEUnfold(n: nat, w: nat)
    requires 0 < w && n < Pow256(w)
    ensures n / 256 < Pow256(w - 1)
    ensures ToBE(n, w) == ToBE(n / 256, w - 1) + [n % 256]
  {
  }

  lemma DivMod256(hi: nat, lo: int)
    requires 0 <= lo < 256
    ensures (hi * 256 + lo) / 256 == hi && (hi * 256 + lo) % 256 == lo
  {
  }

  function Reverse(s: seq<byte>): (r: seq<byte>)
    ensures |r| == |s|
    ensures forall i :: 0 <= i < |s| ==> r[i] == s[|s| - 1 - i]
  {
    if |s| == 0 then [] else Reverse(s[1..]) + [s[0]]
  }

  lemma ReverseReverse(s: seq<byte>)
    ensures Reverse(Reverse(s)) == s
  {
  }

  /** Unsigned little-endian value of `bs` (struct's "<" formats). */
  function FromLE(bs: seq<byte>): (r: nat)
    ensures r < Pow256(|bs|)
  {
    FromBE(Reverse(bs))
  }

  function ToLE(n: nat, w: nat): (r: seq<byte>)
    requires n < Pow256(w)
    ensures |r| == w
    ensures FromLE(r) == n
  {
    ReverseReverse(ToBE(n, w));
    Reverse(ToBE(n, w))
  }

  lemma ToLEFromLE(bs: seq<byte>)
    ensures ToLE(FromLE(bs), |bs|) == bs
  {
    ToBEFromBE(Reverse(bs));
    ReverseReverse(bs);
  }

  /** `n` zero bytes: the fill a short fixed-length string is padded with. */
  function Zeros(n: nat): (r: seq<byte>)
    ensures |r| == n
    ensures forall i :: 0 <= i < n ==> r[i] == 0
  {
    seq(n, _ => 0)
  }
}
