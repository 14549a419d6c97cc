/** Runs of Q6_K super-blocks: the two decoders (tools/bitnet_writer.py `decode_q6k`, tools/chat_v6.py
    `decode_q6k_fast`) and the flat and per-row forms of the encoder (tools/bitnet_writer.py `_encode_q6k`).
 */
module Q6kBlocks {

  import opened Basics
  import opened Q6kLayout

  /** What a decoder multiplies for one element: its code, its scale byte and the two bytes of the block factor. */
  datatype Weight = Weight(code: bv8, scale: bv8, d0: bv8, d1: bv8)

  datatype Block = Block(codes: bytes8, scales: bytes8, d0: bv8, d1: bv8)

  predicate IsWhole(k: Block) {
    && |k.codes| == 256 && |k.scales| == 16
    && forall e :: 0 <= e < 256 ==> k.codes[e] < 64
  }

  function BlockBytes(k: Block): (b: bytes8)
    requires IsWhole(k)
    ensures |b| == 210
  {
    LowBytes(k.codes) + HighBytes(k.codes) + k.scales + [k.d0, k.d1]
  }

  function FileBytes(ks: seq<Block>, n: nat): (b: bytes8)
    requires n <= |ks| && forall i :: 0 <= i < n ==> IsWhole(ks[i])
    ensures |b| == 210 * n
  {
    if n == 0 then [] else FileBytes(ks, n - 1) + BlockBytes(ks[n - 1])
  }

  /** Element `e` of a 210-byte block. */
  function InBlock(block: bytes8, e: nat): Weight
    requires |block| == 210 && e < 256
  {
    PlaceBack(e);
    Positions(PlaceOf(e));
    Weight(Unpacked(block[LowPos(PlaceOf(e))], block[128 + HighPos(PlaceOf(e))], PlaceOf(e).lane),
           block[192 + e / 16], block[208], block[209])
  }

  predicate Holds(data: bytes8, b: nat) {
    210 * b + 210 <= |data|
  }

  function BlockAt(data: bytes8, b: nat): (block: bytes8)
    requires Holds(data, b)
    ensures |block| == 210
  {
    data[210 * b..210 * b + 210]
  }

  /** Element `i` of a run of blocks. */
  function WeightAt(data: bytes8, i: nat): Weight
    requires Holds(data, i / 256)
  {
    InBlock(BlockAt(data, i / 256), i % 256)
  }

  // ----- decoding inverts packing ----------------------------------------------------------------------------

  lemma {:induction false} Fourth<T>(a: seq<T>, b: seq<T>, c: seq<T>, d: seq<T>, i: nat)
    ensures i < |a| ==> (a + b + c + d)[i] == a[i]
    ensures i < |b| ==> (a + b + c + d)[|a| + i] == b[i]
    ensures i < |c| ==> (a + b + c + d)[|a| + |b| + i] == c[i]
    ensures i < |d| ==> (a + b + c + d)[|a| + |b| + |c| + i] == d[i]
  {
  }

  lemma {:induction false} BlockBack(k: Block, e: nat)
    requires IsWhole(k) && e < 256
    ensures InBlock(BlockBytes(k), e) == Weight(k.codes[e], k.scales[e / 16], k.d0, k.d1)
  {
    UnpackInvertsPack(k.codes, e);
    InParts(LowBytes(k.codes), HighBytes(k.codes), k.scales, k.d0, k.d1, e, k.codes[e]);
  }

  /** Element `e` of a block put together from its parts. */
  lemma {:induction false} InParts(low: bytes8, high: bytes8, scales: bytes8, d0: bv8, d1: bv8, e: nat, c: bv8)
    requires |low| == 128 && |high| == 64 && |scales| == 16 && e < 256
    requires var a := PlaceOf(e); LowPos(a) < 128 && HighPos(a) < 64 && Unpacked(low[LowPos(a)], high[HighPos(a)], a.lane) == c
    ensures InBlock(low + high + scales + [d0, d1], e) == Weight(c, scales[e / 16], d0, d1)
  {
    var d := [d0, d1];
    Fourth(low, high, scales, d, LowPos(PlaceOf(e)));
    Fourth(low, high, scales, d, HighPos(PlaceOf(e)));
    Fourth(low, high, scales, d, e / 16);
    Fourth(low, high, scales, d, 0);
    Fourth(low, high, scales, d, 1);
  }

  lemma {:induction false} BlockOfFile(ks: seq<Block>, n: nat, b: nat)
    requires b < n <= |ks| && forall i :: 0 <= i < n ==> IsWhole(ks[i])
    ensures Holds(FileBytes(ks, n), b) && BlockAt(FileBytes(ks, n), b) == BlockBytes(ks[b])
  {
    if b < n - 1 {
      BlockOfFile(ks, n - 1, b);
      assert BlockAt(FileBytes(ks, n), b) == BlockAt(FileBytes(ks, n - 1), b);
    }
  }

  /** Every code, scale and factor of every block comes back, for any number of blocks. */
  lemma {:induction false} DecodeInvertsEncode(ks: seq<Block>, i: nat)
    requires i < 256 * |ks| && forall j :: 0 <= j < |ks| ==> IsWhole(ks[j])
    ensures Holds(FileBytes(ks, |ks|), i / 256)
    ensures var k := ks[i / 256];
            WeightAt(FileBytes(ks, |ks|), i) == Weight(k.codes[i % 256], k.scales[i % 256 / 16], k.d0, k.d1)
  {
    BlockOfFile(ks, |ks|, i / 256);
    BlockBack(ks[i / 256], i % 256);
  }

  /** The writer's loop over blocks, packing each. */
  method WriteBlocks(ks: seq<Block>) returns (out: bytes8)
    requires forall i :: 0 <= i < |ks| ==> IsWhole(ks[i])
    ensures out == FileBytes(ks, |ks|)
  {
    out := [];
    for b := 0 to |ks|
      invariant out == FileBytes(ks, b)
    {
      var ql, qh := PackBlock(ks[b].codes);
      out := Extended(out, ql[..], qh[..], ks[b]);
    }
  }

  function Extended(out: bytes8, low: bytes8, high: bytes8, k: Block): (r: bytes8)
    requires IsWhole(k)
    ensures low == LowBytes(k.codes) && high == HighBytes(k.codes) ==> r == out + BlockBytes(k)
  {
    assert out + low + high + k.scales + [k.d0, k.d1] == out + (low + high + k.scales + [k.d0, k.d1]);
    out + low + high + k.scales + [k.d0, k.d1]
  }

  // ----- scalar decoder --------------------------------------------------------------------------------------

  /** Lane `lane` of column `l`, with the offsets the scalar decoder keeps. */
  function Lane(block: bytes8, half: nat, lane: nat, l: nat): Weight
    requires |block| == 210 && half < 2 && lane < 4 && l < 32
  {
    var lowOff := 64 * half + l + (if lane == 0 || lane == 2 then 0 else 32);
    Weight(Unpacked(block[lowOff], block[128 + 32 * half + l], lane),
           block[192 + 8 * half + l / 16 + 2 * lane], block[208], block[209])
  }

  lemma {:induction false} LaneIsInBlock(block: bytes8, half: nat, lane: nat, l: nat)
    requires |block| == 210 && half < 2 && lane < 4 && l < 32
    ensures Elem(Place(half, lane, l)) < 256
    ensures Lane(block, half, lane, l) == InBlock(block, Elem(Place(half, lane, l)))
  {
    ElemBack(Place(half, lane, l));
  }

  /** The elements written before lane `lane` of column `l` of `half`: columns go from left to right in the first
      half, then in the second, and each column runs through its four lanes. */
  predicate Written(e: nat, half: nat, l: nat, lane: nat) {
    var a := PlaceOf(e);
    a.half < half || (a.half == half && (a.col < l || (a.col == l && a.lane < lane)))
  }

  /** The output `was` once that part of block `b` is written over it. */
  function Partly(was: seq<Option<Weight>>, block: bytes8, b: nat, half: nat, l: nat, lane: nat): (r: seq<Option<Weight>>)
    requires |block| == 210
    ensures |r| == |was|
  {
    seq(|was|, i requires 0 <= i < |was| =>
      if i / 256 == b && Written(i % 256, half, l, lane) then Some(InBlock(block, i % 256)) else was[i])
  }

  lemma {:induction false} IndexOf(b: nat, a: Place, i: nat)
    requires Inside(a)
    ensures i == 256 * b + Elem(a) <==> i / 256 == b && PlaceOf(i % 256) == a
    ensures i == 256 * b + Elem(a) ==> i % 256 == Elem(a)
  {
    ElemBack(a);
    if i == 256 * b + Elem(a) {
      assert i / 256 == b && i % 256 == Elem(a);
    }
    if i / 256 == b && PlaceOf(i % 256) == a {
      PlaceBack(i % 256);
    }
  }

  function Put(was: seq<Option<Weight>>, block: bytes8, b: nat, a: Place): (r: seq<Option<Weight>>)
    requires |block| == 210 && Inside(a)
    ensures |r| == |was|
  {
    ElemBack(a);
    if 256 * b + Elem(a) < |was| then was[256 * b + Elem(a) := Some(InBlock(block, Elem(a)))] else was
  }

  lemma {:induction false} PutExtends(was: seq<Option<Weight>>, block: bytes8, b: nat, a: Place)
    requires |block| == 210 && Inside(a)
    ensures Put(Partly(was, block, b, a.half, a.col, a.lane), block, b, a)
            == Partly(was, block, b, a.half, a.col, a.lane + 1)
  {
    var before, after := Partly(was, block, b, a.half, a.col, a.lane), Partly(was, block, b, a.half, a.col, a.lane + 1);
    var r := Put(before, block, b, a);
    forall i | 0 <= i < |was| ensures r[i] == after[i] {
      IndexOf(b, a, i);
    }
  }

  lemma {:induction false} NextColumn(was: seq<Option<Weight>>, block: bytes8, b: nat, half: nat, l: nat)
    requires |block| == 210
    ensures Partly(was, block, b, half, l, 4) == Partly(was, block, b, half, l + 1, 0)
    ensures Partly(was, block, b, half, 32, 0) == Partly(was, block, b, half + 1, 0, 0)
    ensures Partly(was, block, b, 0, 0, 0) == was
  {
    forall i | 0 <= i < |was|
      ensures Written(i % 256, half, l, 4) == Written(i % 256, half, l + 1, 0)
      ensures Written(i % 256, half, 32, 0) == Written(i % 256, half + 1, 0, 0)
    {
      PlaceBack(i % 256);
    }
  }

  method PutLane(out: array<Option<Weight>>, b: nat, block: bytes8, half: nat, lane: nat, l: nat)
    requires |block| == 210 && half < 2 && lane < 4 && l < 32
    modifies out
    ensures out[..] == Put(old(out[..]), block, b, Place(half, lane, l))
  {
    LaneIsInBlock(block, half, lane, l);
    var i := 256 * b + 128 * half + l + 32 * lane;
    if i < out.Length {
      out[i] := Some(Lane(block, half, lane, l));
    }
  }

  method PutColumn(out: array<Option<Weight>>, b: nat, block: bytes8, half: nat, l: nat, ghost was: seq<Option<Weight>>)
    requires |block| == 210 && half < 2 && l < 32
    requires |was| == out.Length && out[..] == Partly(was, block, b, half, l, 0)
    modifies out
    ensures out[..] == Partly(was, block, b, half, l + 1, 0)
  {
    PutLane(out, b, block, half, 0, l);
    PutExtends(was, block, b, Place(half, 0, l));
    PutLane(out, b, block, half, 1, l);
    PutExtends(was, block, b, Place(half, 1, l));
    PutLane(out, b, block, half, 2, l);
    PutExtends(was, block, b, Place(half, 2, l));
    PutLane(out, b, block, half, 3, l);
    PutExtends(was, block, b, Place(half, 3, l));
    NextColumn(was, block, b, half, l);
  }

  method PutBlock(out: array<Option<Weight>>, b: nat, block: bytes8)
    requires |block| == 210
    modifies out
    ensures out[..] == Partly(old(out[..]), block, b, 2, 0, 0)
  {
    ghost var was := out[..];
    NextColumn(was, block, b, 0, 0);
    for half := 0 to 2
      invariant out[..] == Partly(was, block, b, half, 0, 0)
    {
      for l := 0 to 32
        invariant out[..] == Partly(was, block, b, half, l, 0)
      {
        PutColumn(out, b, block, half, l, was);
      }
      NextColumn(was, block, b, half, 0);
    }
  }

  /** The output after `n` blocks: decoded as far as whole blocks reach, zero after that. */
  function Decoded(data: bytes8, total: nat, n: nat): (r: seq<Option<Weight>>)
    ensures |r| == total
  {
    seq(total, i requires 0 <= i < total => if i / 256 < n && Holds(data, i / 256) then Some(WeightAt(data, i)) else None)
  }

  lemma {:induction false} BlockExtends(data: bytes8, total: nat, b: nat)
    requires Holds(data, b)
    ensures Partly(Decoded(data, total, b), BlockAt(data, b), b, 2, 0, 0) == Decoded(data, total, b + 1)
  {
    forall i | 0 <= i < total ensures Written(i % 256, 2, 0, 0) {
      PlaceBack(i % 256);
    }
  }

  lemma {:induction false} DecodedEnds(data: bytes8, total: nat, b: nat)
    requires b <= (total + 255) / 256
    requires b == (total + 255) / 256 || !Holds(data, b)
    ensures Decoded(data, total, b) == Decoded(data, total, (total + 255) / 256)
  {
  }

  /** The scalar decoder: stops at the first block the data does not hold, and leaves zeros after it. */
  method DecodeScalar(data: bytes8, total: nat) returns (r: seq<Option<Weight>>)
    ensures r == Decoded(data, total, (total + 255) / 256)
  {
    var out := new Option<Weight>[total](_ => None);
    assert out[..] == Decoded(data, total, 0);
    var b := 0;
    while b < (total + 255) / 256
      invariant b <= (total + 255) / 256 && out[..] == Decoded(data, total, b)
    {
      if |data| < b * 210 + 210 {
        break;
      }
      BlockExtends(data, total, b);
      PutBlock(out, b, data[b * 210..b * 210 + 210]);
      b := b + 1;
    }
    DecodedEnds(data, total, b);
    r := out[..];
  }

  // ----- vectorised decoder ----------------------------------------------------------------------------------

  /** Row `h` of a section reshaped to rows of `width`. */
  function Row(section: bytes8, h: nat, width: nat, ghost at: nat): (r: bytes8)
    requires at == h * width && at + width <= |section|
    ensures |r| == width && forall c {:trigger r[c]} :: 0 <= c < width ==> r[c] == section[at + c]
  {
    section[h * width..h * width + width]
  }

  /** The low, high and scale bytes of lane `lane` of half `h`, column `c`, as the sliced arrays give them. */
  function SlicedLow(block: bytes8, h: nat, lane: nat, c: nat): (r: bv8)
    requires |block| == 210 && h < 2 && lane < 4 && c < 32
    ensures r == block[64 * h + c + (if lane == 0 || lane == 2 then 0 else 32)]
  {
    var ql := Row(block[..128], h, 64, 64 * h);
    if lane % 2 == 0 then ql[..32][c] else ql[32..][c]
  }

  function SlicedHigh(block: bytes8, h: nat, c: nat): (r: bv8)
    requires |block| == 210 && h < 2 && c < 32
    ensures r == block[128 + 32 * h + c]
  {
    Row(block[128..192], h, 32, 32 * h)[c]
  }

  function SlicedScale(block: bytes8, h: nat, lane: nat, c: nat): (r: bv8)
    requires |block| == 210 && h < 2 && lane < 4 && c < 32
    ensures r == block[192 + 8 * h + c / 16 + 2 * lane]
  {
    Row(block[192..208], h, 8, 8 * h)[2 * lane + (if c < 16 then 0 else 1)]
  }

  function Sliced(block: bytes8, h: nat, lane: nat, c: nat): (w: Weight)
    requires |block| == 210 && h < 2 && lane < 4 && c < 32
    ensures w == Lane(block, h, lane, c)
  {
    Weight(Unpacked(SlicedLow(block, h, lane, c), SlicedHigh(block, h, c), lane),
           SlicedScale(block, h, lane, c), block[208], block[209])
  }

  /** Element `e` of block `b`. */
  function Cell(data: bytes8, b: nat, e: nat): Weight
    requires Holds(data, b) && e < 256
  {
    InBlock(BlockAt(data, b), e)
  }

  function SlicedCell(data: bytes8, b: nat, h: nat, lane: nat, c: nat): (w: Weight)
    requires Holds(data, b) && h < 2 && lane < 4 && c < 32
    ensures w == Cell(data, b, 128 * h + 32 * lane + c)
  {
    SlicedIsInBlock(BlockAt(data, b), h, lane, c, 128 * h + 32 * lane + c);
    Sliced(BlockAt(data, b), h, lane, c)
  }

  lemma {:induction false} SlicedIsInBlock(block: bytes8, h: nat, lane: nat, c: nat, e: nat)
    requires |block| == 210 && h < 2 && lane < 4 && c < 32 && e == 128 * h + 32 * lane + c
    ensures Sliced(block, h, lane, c) == InBlock(block, e)
  {
    LaneIsInBlock(block, h, lane, c);
  }

  /** The first `n` elements of every block are in place. */
  ghost predicate FilledTo(out: array2<Weight>, data: bytes8, n: nat)
    reads out
  {
    && out.Length1 == 256 && n <= 256 && 210 * out.Length0 <= |data|
    && forall b, e :: 0 <= b < out.Length0 && 0 <= e < n ==> out[b, e] == Cell(data, b, e)
  }

  /** Fills lane `lane` of half `h` of every block at once. */
  method PutLanes(out: array2<Weight>, data: bytes8, h: nat, lane: nat, n: nat)
    requires h < 2 && lane < 4 && n == 128 * h + 32 * lane && FilledTo(out, data, n)
    modifies out
    ensures FilledTo(out, data, n + 32)
  {
    forall b, e | 0 <= b < out.Length0 && n <= e < n + 32 {
      out[b, e] := SlicedCell(data, b, h, lane, e - n);
    }
  }

  method PutHalf(out: array2<Weight>, data: bytes8, h: nat)
    requires h < 2 && FilledTo(out, data, 128 * h)
    modifies out
    ensures FilledTo(out, data, 128 * h + 128)
  {
    PutLanes(out, data, h, 0, 128 * h);
    PutLanes(out, data, h, 1, 128 * h + 32);
    PutLanes(out, data, h, 2, 128 * h + 64);
    PutLanes(out, data, h, 3, 128 * h + 96);
  }

  /** The filled table read row by row, cut to `total`. */
  method Ravelled(out: array2<Weight>, data: bytes8, total: nat) returns (flat: seq<Weight>)
    requires FilledTo(out, data, 256) && out.Length0 == (total + 255) / 256
    ensures |flat| == total
    ensures forall i :: 0 <= i < total ==> Holds(data, i / 256) && flat[i] == WeightAt(data, i)
  {
    flat := [];
    for i := 0 to total
      invariant |flat| == i
      invariant forall j :: 0 <= j < i ==> Holds(data, j / 256) && flat[j] == WeightAt(data, j)
    {
      assert out[i / 256, i % 256] == Cell(data, i / 256, i % 256);
      flat := flat + [out[i / 256, i % 256]];
    }
  }

  /** The vectorised decoder refuses data shorter than its blocks; otherwise it gives what the scalar one gives. */
  method DecodeFast(data: bytes8, total: nat) returns (r: Option<seq<Weight>>)
    ensures r.Some? <==> 210 * ((total + 255) / 256) <= |data|
    ensures r.Some? ==> |r.value| == total
                        && forall i :: 0 <= i < total ==> Decoded(data, total, (total + 255) / 256)[i] == Some(r.value[i])
  {
    var nb := (total + 255) / 256;
    if |data| < 210 * nb {
      return None;
    }
    var out := new Weight[nb, 256];
    for h := 0 to 2
      invariant FilledTo(out, data, 128 * h)
    {
      PutHalf(out, data, h);
    }
    var flat := Ravelled(out, data, total);
    r := Some(flat);
  }

  // ----- flat and per-row encoding ---------------------------------------------------------------------------

  /** Block `b` of a row of values, padded with zeros. */
  function Padded(vals: seq<real>, b: nat): (r: seq<real>)
    ensures |r| == 256
  {
    seq(256, j requires 0 <= j < 256 => if 256 * b + j < |vals| then vals[256 * b + j] else 0.0)
  }

  /** The first `n` blocks of a row of values, each encoded by `enc`. */
  function Encoded(enc: seq<real> -> bytes8, vals: seq<real>, n: nat): bytes8 {
    if n == 0 then [] else Encoded(enc, vals, n - 1) + enc(Padded(vals, n - 1))
  }

  function BlockCount(vals: seq<real>): nat {
    (|vals| + 255) / 256
  }

  /** The flat encoding of all values, and the per-row encoding of `n` rows. */
  function Flat(enc: seq<real> -> bytes8, vals: seq<real>): bytes8 {
    Encoded(enc, vals, BlockCount(vals))
  }

  function PerRow(enc: seq<real> -> bytes8, rows: seq<seq<real>>, n: nat): bytes8
    requires n <= |rows|
  {
    if n == 0 then [] else PerRow(enc, rows, n - 1) + Flat(enc, rows[n - 1])
  }

  function Ravel(rows: seq<seq<real>>, n: nat): seq<real>
    requires n <= |rows|
  {
    if n == 0 then [] else Ravel(rows, n - 1) + rows[n - 1]
  }

  lemma {:induction false} EncodedAppend(enc: seq<real> -> bytes8, a: seq<real>, c: seq<real>, m: nat, n: nat)
    requires |a| == 256 * m
    ensures Encoded(enc, a + c, m + n) == Encoded(enc, a, m) + Encoded(enc, c, n)
  {
    if n == 0 {
      EncodedPrefix(enc, a, c, m, m);
      assert Encoded(enc, a, m) + [] == Encoded(enc, a, m);
    } else {
      EncodedAppend(enc, a, c, m, n - 1);
      assert Padded(a + c, m + n - 1) == Padded(c, n - 1);
      var x, y, z := Encoded(enc, a, m), Encoded(enc, c, n - 1), enc(Padded(c, n - 1));
      assert x + y + z == x + (y + z);
    }
  }

  lemma {:induction false} EncodedPrefix(enc: seq<real> -> bytes8, a: seq<real>, c: seq<real>, m: nat, n: nat)
    requires |a| == 256 * m && n <= m
    ensures Encoded(enc, a + c, n) == Encoded(enc, a, n)
  {
    if n > 0 {
      EncodedPrefix(enc, a, c, m, n - 1);
      assert Padded(a + c, n - 1) == Padded(a, n - 1);
    }
  }

  ghost predicate Encodes(enc: seq<real> -> bytes8) {
    forall block: seq<real> :: |block| == 256 ==> |enc(block)| == 210
  }

  lemma {:induction false} EncodedLen(enc: seq<real> -> bytes8, vals: seq<real>, n: nat)
    requires Encodes(enc)
    ensures |Encoded(enc, vals, n)| == 210 * n
  {
    if n > 0 {
      EncodedLen(enc, vals, n - 1);
    }
  }

  /** Block `b` of an encoding is the encoding of block `b`. */
  lemma {:induction false} BlockOfEncoded(enc: seq<real> -> bytes8, vals: seq<real>, n: nat, b: nat)
    requires Encodes(enc) && b < n
    ensures Holds(Encoded(enc, vals, n), b) && BlockAt(Encoded(enc, vals, n), b) == enc(Padded(vals, b))
  {
    EncodedLen(enc, vals, n - 1);
    EncodedLen(enc, vals, n);
    var front, last := Encoded(enc, vals, n - 1), enc(Padded(vals, n - 1));
    if b < n - 1 {
      BlockOfEncoded(enc, vals, n - 1, b);
      assert BlockAt(front + last, b) == BlockAt(front, b);
    } else {
      assert BlockAt(front + last, b) == last;
    }
  }

  /** What both decoders read for value `i` of an encoding. */
  lemma {:induction false} DecodedOfEncoded(enc: seq<real> -> bytes8, vals: seq<real>, i: nat)
    requires Encodes(enc) && i < |vals|
    ensures Decoded(Flat(enc, vals), |vals|, BlockCount(vals))[i] == Some(InBlock(enc(Padded(vals, i / 256)), i % 256))
  {
    BlockOfEncoded(enc, vals, BlockCount(vals), i / 256);
  }

  predicate Rectangular(rows: seq<seq<real>>, cols: nat) {
    forall r :: 0 <= r < |rows| ==> |rows[r]| == cols
  }

  /** When the columns fill whole blocks, encoding row by row gives byte for byte the flat encoding. */
  lemma {:induction false} PerRowIsFlat(enc: seq<real> -> bytes8, rows: seq<seq<real>>, cols: nat, n: nat)
    requires Rectangular(rows, cols) && cols % 256 == 0 && n <= |rows|
    ensures |Ravel(rows, n)| % 256 == 0
    ensures PerRow(enc, rows, n) == Flat(enc, Ravel(rows, n))
  {
    if n > 0 {
      PerRowIsFlat(enc, rows, cols, n - 1);
      var a, c := Ravel(rows, n - 1), rows[n - 1];
      EncodedAppend(enc, a, c, |a| / 256, BlockCount(c));
      assert BlockCount(a + c) == |a| / 256 + BlockCount(c);
    }
  }

  // ----- when the two encodings differ -----------------------------------------------------------------------

  /** Only a block of zeros is encoded as one. */
  ghost predicate TellsZeros(enc: seq<real> -> bytes8) {
    forall block: seq<real>, e: nat :: |block| == 256 && e < 256 && enc(block) == enc(Padded([], 0)) ==> block[e] == 0.0
  }

  /** The rows encoded later do not change the bytes of the earlier ones. */
  lemma {:induction false} PerRowPrefix(enc: seq<real> -> bytes8, rows: seq<seq<real>>, k: nat, n: nat)
    requires k <= n <= |rows|
    ensures |PerRow(enc, rows, k)| <= |PerRow(enc, rows, n)|
    ensures PerRow(enc, rows, n)[..|PerRow(enc, rows, k)|] == PerRow(enc, rows, k)
  {
    if k < n {
      PerRowPrefix(enc, rows, k, n - 1);
    }
  }

  lemma {:induction false} RavelPrefix(rows: seq<seq<real>>, k: nat, n: nat)
    requires k <= n <= |rows|
    ensures |Ravel(rows, k)| <= |Ravel(rows, n)| && Ravel(rows, n)[..|Ravel(rows, k)|] == Ravel(rows, k)
  {
    if k < n {
      RavelPrefix(rows, k, n - 1);
    }
  }

  lemma {:induction false} FirstRow(enc: seq<real> -> bytes8, rows: seq<seq<real>>, n: nat, b: nat)
    requires Encodes(enc) && 1 <= n <= |rows| && b < BlockCount(rows[0])
    ensures Holds(PerRow(enc, rows, n), b) && BlockAt(PerRow(enc, rows, n), b) == enc(Padded(rows[0], b))
  {
    PerRowPrefix(enc, rows, 1, n);
    assert PerRow(enc, rows, 0) == [];
    assert PerRow(enc, rows, 1) == Flat(enc, rows[0]);
    BlockOfEncoded(enc, rows[0], BlockCount(rows[0]), b);
    SameBlock(PerRow(enc, rows, n), PerRow(enc, rows, 1), b);
  }

  lemma {:induction false} SameBlock(long: bytes8, short: bytes8, b: nat)
    requires |short| <= |long| && long[..|short|] == short && Holds(short, b)
    ensures Holds(long, b) && BlockAt(long, b) == BlockAt(short, b)
  {
    assert forall i :: 0 <= i < |short| ==> long[i] == long[..|short|][i];
  }

  /** The first value of the second row stands where the first row's padding would. */
  lemma {:induction false} SecondRow(rows: seq<seq<real>>, cols: nat, n: nat, b: nat)
    requires Rectangular(rows, cols) && 2 <= n <= |rows| && cols % 256 != 0 && b == cols / 256
    ensures b < BlockCount(Ravel(rows, n)) && Padded(Ravel(rows, n), b)[cols % 256] == rows[1][0]
  {
    RavelPrefix(rows, 2, n);
    assert Ravel(rows, 0) == [];
    assert Ravel(rows, 1) == rows[0];
    assert Ravel(rows, 2) == rows[0] + rows[1];
    assert Ravel(rows, n)[cols] == Ravel(rows, n)[..|Ravel(rows, 2)|][cols];
  }

  lemma {:induction false} RowsDiffer(enc: seq<real> -> bytes8, rows: seq<seq<real>>, cols: nat, n: nat)
    requires Encodes(enc) && TellsZeros(enc) && Rectangular(rows, cols) && 2 <= n <= |rows| && cols % 256 != 0
    requires (forall i :: 0 <= i < cols ==> rows[0][i] == 0.0) && rows[1][0] != 0.0
    ensures PerRow(enc, rows, n) != Flat(enc, Ravel(rows, n))
  {
    var b := cols / 256;
    FirstRow(enc, rows, n, b);
    SecondRow(rows, cols, n, b);
    BlockOfEncoded(enc, Ravel(rows, n), BlockCount(Ravel(rows, n)), b);
    assert Padded(rows[0], b) == Padded([], 0);
  }

  /** All zeros in the first row, all ones in the others. */
  function OnesBelow(n: nat, cols: nat): (rows: seq<seq<real>>)
    ensures |rows| == n && Rectangular(rows, cols)
  {
    seq(n, r requires 0 <= r < n => seq(cols, _ => if r == 0 then 0.0 else 1.0))
  }

  /** Encoding row by row gives the flat encoding of every matrix of this shape: exactly when the columns fill whole
      blocks or there is at most one row. */
  ghost predicate RowsAreFlat(enc: seq<real> -> bytes8, n: nat, cols: nat) {
    forall rows: seq<seq<real>> :: |rows| == n && Rectangular(rows, cols) ==>
      PerRow(enc, rows, n) == Flat(enc, Ravel(rows, n))
  }

  lemma {:induction false} RowsAreFlatWhen(enc: seq<real> -> bytes8, n: nat, cols: nat)
    requires Encodes(enc) && TellsZeros(enc)
    ensures RowsAreFlat(enc, n, cols) <==> n <= 1 || cols % 256 == 0
  {
    if n <= 1 || cols % 256 == 0 {
      forall rows: seq<seq<real>> | |rows| == n && Rectangular(rows, cols)
        ensures PerRow(enc, rows, n) == Flat(enc, Ravel(rows, n))
      {
        if n <= 1 {
          OneRow(enc, rows);
        } else {
          PerRowIsFlat(enc, rows, cols, n);
        }
      }
    } else {
      var rows := OnesBelow(n, cols);
      RowsDiffer(enc, rows, cols, n);
    }
  }

  lemma {:induction false} OneRow(enc: seq<real> -> bytes8, rows: seq<seq<real>>)
    requires |rows| <= 1
    ensures PerRow(enc, rows, |rows|) == Flat(enc, Ravel(rows, |rows|))
  {
    assert PerRow(enc, rows, 0) == [] && Ravel(rows, 0) == [];
    if |rows| == 0 {
      assert BlockCount([]) == 0;
    } else {
      assert Ravel(rows, 1) == rows[0];
      assert PerRow(enc, rows, 1) == Flat(enc, rows[0]);
    }
  }

  method EncodeFlat(enc: seq<real> -> bytes8, vals: seq<real>) returns (out: bytes8)
    ensures out == Flat(enc, vals)
  {
    out := [];
    for b := 0 to (|vals| + 255) / 256
      invariant out == Encoded(enc, vals, b)
    {
      out := out + enc(Padded(vals, b));
    }
  }

  method EncodePerRow(enc: seq<real> -> bytes8, rows: seq<seq<real>>, cols: nat) returns (out: bytes8)
    requires Rectangular(rows, cols)
    ensures out == PerRow(enc, rows, |rows|)
    ensures cols % 256 == 0 ==> out == Flat(enc, Ravel(rows, |rows|))
  {
    out := [];
    for r := 0 to |rows|
      invariant out == PerRow(enc, rows, r)
    {
      var one := EncodeFlat(enc, rows[r]);
      out := out + one;
    }
    if cols % 256 == 0 {
      PerRowIsFlat(enc, rows, cols, |rows|);
    }
  }
}
