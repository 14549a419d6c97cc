/** Packing of trits, four to a byte (tools/bitnet_writer.py `pack_ternary`, tools/bitfuzzy_moe_recurrent.py
    `ternary_pack`/`ternary_unpack`, tools/chat_v6.py `unpack_ternary`).
 */
module Trits {
  import opened Wire

  type trit = t: int | -1 <= t <= 1

  /** Two-bit codes: 00 is 0, 01 is +1, 10 is -1. */
  function Code(t: trit): (c: nat)
    ensures c < 3
  {
    if t > 0 then 1 else if t < 0 then 2 else 0
  }

  /** The look-up table of the readers; the unused code 11 reads as 0. */
  function TritOf(code: nat): trit {
    if code == 1 then 1 else if code == 2 then -1 else 0
  }

  /** Code of trit `i`, zero beyond the end. */
  function CodeAt(ts: seq<trit>, i: nat): (c: nat)
    ensures c < 3
  {
    if i < |ts| then Code(ts[i]) else 0
  }

  function PackedLen(n: nat): nat {
    (n + 3) / 4
  }

  function Quad(a: nat, b: nat, c: nat, d: nat): byte
    requires a < 4 && b < 4 && c < 4 && d < 4
  {
    a + 4 * (b + 4 * (c + 4 * d))
  }

  function QuadAt(ts: seq<trit>, k: nat): byte {
    Quad(CodeAt(ts, 4 * k), CodeAt(ts, 4 * k + 1), CodeAt(ts, 4 * k + 2), CodeAt(ts, 4 * k + 3))
  }

  /** The first `k` packed bytes. */
  function Packed(ts: seq<trit>, k: nat): (b: bytes)
    ensures |b| == k
  {
    if k == 0 then [] else Packed(ts, k - 1) + [QuadAt(ts, k - 1)]
  }

  function Pack(ts: seq<trit>): (b: bytes)
    ensures |b| == PackedLen(|ts|)
  {
    Packed(ts, PackedLen(|ts|))
  }

  /** Bits 2i and 2i + 1 of a byte: shifted down, then masked. */
  function Lane(b: nat, i: nat): nat
    decreases i
  {
    if i == 0 then b % 4 else Lane(b / 4, i - 1)
  }

  /** The first `n` trits of packed bytes. */
  function Unpack(b: bytes, n: nat): (ts: seq<trit>)
    requires PackedLen(n) <= |b|
    ensures |ts| == n
  {
    if n == 0 then [] else Unpack(b, n - 1) + [TritOf(Lane(b[(n - 1) / 4], (n - 1) % 4))]
  }

  lemma {:induction false} LowLane(a: nat, x: nat)
    requires a < 4
    ensures (a + 4 * x) % 4 == a && (a + 4 * x) / 4 == x
  {
  }

  lemma {:induction false} LaneOfQuad(a: nat, b: nat, c: nat, d: nat, i: nat)
    requires a < 4 && b < 4 && c < 4 && d < 4 && i < 4
    ensures Lane(Quad(a, b, c, d), i) == if i == 0 then a else if i == 1 then b else if i == 2 then c else d
  {
    var z := c + 4 * d;
    var y := b + 4 * z;
    LowLane(a, y);
    LowLane(b, z);
    LowLane(c, d);
    if i > 0 {
      assert Lane(a + 4 * y, i) == Lane(y, i - 1);
      if i > 1 {
        assert Lane(y, i - 1) == Lane(z, i - 2);
        if i > 2 {
          assert Lane(z, 1) == Lane(d, 0);
        }
      }
    }
  }

  lemma {:induction false} CodeBack(t: trit)
    ensures TritOf(Code(t)) == t
  {
  }

  lemma {:induction false} PackedAt(ts: seq<trit>, k: nat, i: nat)
    requires i < k
    ensures Packed(ts, k)[i] == QuadAt(ts, i)
  {
    if i < k - 1 {
      PackedAt(ts, k - 1, i);
    }
  }

  lemma {:induction false} UnpackAt(ts: seq<trit>, k: nat, r: nat)
    requires r < 4 && 4 * k + r < |ts|
    ensures k < |Pack(ts)| && TritOf(Lane(Pack(ts)[k], r)) == ts[4 * k + r]
  {
    var a, b, c, d := CodeAt(ts, 4 * k), CodeAt(ts, 4 * k + 1), CodeAt(ts, 4 * k + 2), CodeAt(ts, 4 * k + 3);
    PackedAt(ts, PackedLen(|ts|), k);
    LaneOfQuad(a, b, c, d, r);
    CodeBack(ts[4 * k + r]);
  }

  lemma {:induction false} UnpackPrefix(ts: seq<trit>, n: nat)
    requires n <= |ts|
    ensures Unpack(Pack(ts), n) == ts[..n]
  {
    if n > 0 {
      UnpackPrefix(ts, n - 1);
      UnpackAt(ts, (n - 1) / 4, (n - 1) % 4);
      assert ts[..n] == ts[..n - 1] + [ts[n - 1]];
    }
  }

  /** Unpacking inverts packing for every number of trits, also when the last byte is part filled. */
  lemma {:induction false} UnpackInvertsPack(ts: seq<trit>)
    ensures Unpack(Pack(ts), |ts|) == ts
  {
    UnpackPrefix(ts, |ts|);
    assert ts[..|ts|] == ts;
  }
}
