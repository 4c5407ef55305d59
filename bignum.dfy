/**
 * The byte form of a bn.js number (`toArray()` / `toBuffer()` with no length argument):
 * big-endian, no leading zero byte, and `[0]` for zero.
 */
module BigNum {
  import opened Hex

  /** Value of big-endian bytes. */
  function ValueOf(b: seq<byte>): nat {
    if b == [] then 0 else 256 * ValueOf(b[..|b| - 1]) + b[|b| - 1]
  }

  /** `bn.toArray()`: minimal big-endian bytes; the leading byte is zero only for the number zero. */
  function ToArray(n: nat): (b: seq<byte>)
    ensures |b| >= 1
    ensures b[0] == 0 <==> n == 0
    ensures n < 256 ==> b == [n]
    decreases n
  {
    if n < 256 then [n] else ToArray(n / 256) + [n % 256]
  }

  /** The bytes denote the number they were made from. */
  lemma {:induction false} ValueOfToArray(n: nat)
    ensures ValueOf(ToArray(n)) == n
    decreases n
  {
    if n >= 256 {
      var b := ToArray(n);
      assert b[..|b| - 1] == ToArray(n / 256);
      ValueOfToArray(n / 256);
    }
  }

  /** A number below 256^k takes at most k bytes, so an ECDSA `r` or `s` below 2^256 fits in 32. */
  lemma {:induction false} ToArrayLength(n: nat, k: nat)
    requires 1 <= k && n < Pow256(k)
    ensures |ToArray(n)| <= k
    decreases k
  {
    if n >= 256 {
      assert k > 1;
      assert n / 256 < Pow256(k - 1);
      ToArrayLength(n / 256, k - 1);
    }
  }

  function Pow256(k: nat): (p: nat)
    ensures p >= 1
  {
    if k == 0 then 1 else 256 * Pow256(k - 1)
  }
}
