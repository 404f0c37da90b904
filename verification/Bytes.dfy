/**
 * The parts of Python's `bytes` and `int` the mock server's codec relies on:
 * clamped slicing, `int.from_bytes(.., 'little')` and `int.to_bytes(w, 'little')`,
 * which raises OverflowError (None here) when the number does not fit.
 */
module Bytes {
  import opened Common

  type byte = x: int | 0 <= x < 256

  function Pow256(w: nat): (p: nat)
    ensures p > 0
  {
    if w == 0 then 1 else 256 * Pow256(w - 1)
  }

  function FromBytes(b: seq<byte>): nat {
    if b == [] then 0 else b[0] + 256 * FromBytes(b[1..])
  }

  function LittleEndian(n: nat, w: nat): (b: seq<byte>)
    ensures |b| == w
  {
    if w == 0 then [] else [n % 256] + LittleEndian(n / 256, w - 1)
  }

  function ToBytes(n: int, w: nat): Option<seq<byte>> {
    if 0 <= n < Pow256(w) then Some(LittleEndian(n, w)) else None
  }

  /** `s[i:j]` for non-negative bounds: out-of-range bounds are clamped, never an error. */
  function Slice(s: seq<byte>, i: nat, j: nat): seq<byte> {
    if i <= j <= |s| then s[i..j]
    else if i <= |s| && |s| < j then s[i..]
    else []
  }

  /** `s[i:]`, clamped likewise. */
  function Tail(s: seq<byte>, i: nat): seq<byte> {
    if i <= |s| then s[i..] else []
  }

  lemma {:induction false} LittleEndianDecodes(n: nat, w: nat)
    requires n < Pow256(w)
    ensures FromBytes(LittleEndian(n, w)) == n
  {
    if w > 0 {
      LittleEndianDecodes(n / 256, w - 1);
      assert LittleEndian(n, w)[1..] == LittleEndian(n / 256, w - 1);
    }
  }

  lemma Pow256Values()
    ensures Pow256(1) == 256 && Pow256(2) == 65536 && Pow256(4) == 0x1_0000_0000
  {
  }
}
