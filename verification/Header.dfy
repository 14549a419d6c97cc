/** The header shared by .bitnet v6, v7 and .bfz files (tools/bitnet_writer.py `write_header_v6`,
    tools/export_no_std.py `_write_header`).
 */
module Header {
  import opened Basics
  import opened Wire
  import opened Sections

  const MAGIC := 0xBE11_BE11

  // The letters "TIED" as a little-endian number.
  const TIED := 0x4445_4954

  /** Header fields at offsets 18 to 44; `layers` counts recurrent steps in .bfz files. */
  datatype Dims = Dims(hidden: nat, layers: nat, heads: nat, vocab: nat, maxSeq: nat, intermediate: nat,
                       kvHeads: nat, qDim: nat, medusa: nat, tied: bool)

  predicate DimsFit(d: Dims) {
    && d.hidden < HALF && d.layers < HALF && d.heads < HALF && d.vocab < WORD && d.maxSeq < HALF
    && d.intermediate < HALF && d.kvHeads < HALF && d.qDim < HALF && d.medusa < WORD
  }

  function Preamble(version: nat, numParams: nat, modelType: nat): (b: bytes)
    ensures |b| == 18
  {
    LE(MAGIC, 4) + (LE(version, 2) + (LE(numParams, 8) + (LE(modelType, 1) + LE(0, 3))))
  }

  function DimBytes(d: Dims): (b: bytes)
    ensures |b| == 26
  {
    LE(d.hidden, 2) + (LE(d.layers, 2) + (LE(d.heads, 2) + (LE(d.vocab, 4) + (LE(d.maxSeq, 2) +
    (LE(d.intermediate, 2) + (LE(d.kvHeads, 2) + (LE(d.qDim, 2) + (LE(d.medusa, 4) +
    LE(if d.tied then TIED else 0, 4)))))))))
  }

  /** Numbers at the offsets the readers use. */
  ghost predicate PreambleReads(v: View, version: nat, numParams: nat, modelType: nat) {
    && v.num(0, 4) == Ok(MAGIC) && v.num(4, 2) == Ok(version) && v.num(6, 8) == Ok(numParams)
    && v.num(14, 1) == Ok(modelType)
  }

  ghost predicate DimsRead(v: View, d: Dims) {
    && v.num(18, 2) == Ok(d.hidden) && v.num(20, 2) == Ok(d.layers) && v.num(22, 2) == Ok(d.heads)
    && v.num(24, 4) == Ok(d.vocab) && v.num(28, 2) == Ok(d.maxSeq) && v.num(30, 2) == Ok(d.intermediate)
    && v.num(32, 2) == Ok(d.kvHeads) && v.num(34, 2) == Ok(d.qDim) && v.num(36, 4) == Ok(d.medusa)
    && v.num(40, 4) == Ok(if d.tied then TIED else 0)
  }

  lemma {:induction false} Field(v: View, data: bytes, o: nat, x: nat, w: nat, rest: bytes)
    requires SeesNums(v, data) && x < Limit(w) && At(data, o, LE(x, w) + rest)
    ensures v.num(o, w) == Ok(x) && At(data, o + w, rest)
  {
    AtSplit(data, o, LE(x, w), rest);
    SeeNum(v, data, o, x, w);
  }

  lemma {:induction false} PreambleBack(v: View, data: bytes, version: nat, numParams: nat, modelType: nat)
    requires SeesNums(v, data) && version < HALF && numParams < Limit(8) && modelType < 256
    requires At(data, 0, Preamble(version, numParams, modelType))
    ensures PreambleReads(v, version, numParams, modelType)
  {
    var r3 := LE(modelType, 1) + LE(0, 3);
    var r2 := LE(numParams, 8) + r3;
    var r1 := LE(version, 2) + r2;
    Field(v, data, 0, MAGIC, 4, r1);
    Field(v, data, 4, version, 2, r2);
    Field(v, data, 6, numParams, 8, r3);
    Field(v, data, 14, modelType, 1, LE(0, 3));
  }

  lemma {:induction false} DimsBack(v: View, data: bytes, d: Dims)
    requires SeesNums(v, data) && DimsFit(d) && At(data, 18, DimBytes(d))
    ensures DimsRead(v, d)
  {
    var tie := if d.tied then TIED else 0;
    var r9 := LE(tie, 4);
    var r8 := LE(d.medusa, 4) + r9;
    var r7 := LE(d.qDim, 2) + r8;
    var r6 := LE(d.kvHeads, 2) + r7;
    var r5 := LE(d.intermediate, 2) + r6;
    var r4 := LE(d.maxSeq, 2) + r5;
    var r3 := LE(d.vocab, 4) + r4;
    var r2 := LE(d.heads, 2) + r3;
    var r1 := LE(d.layers, 2) + r2;
    Field(v, data, 18, d.hidden, 2, r1);
    Field(v, data, 20, d.layers, 2, r2);
    Field(v, data, 22, d.heads, 2, r3);
    Field(v, data, 24, d.vocab, 4, r4);
    Field(v, data, 28, d.maxSeq, 2, r5);
    Field(v, data, 30, d.intermediate, 2, r6);
    Field(v, data, 32, d.kvHeads, 2, r7);
    Field(v, data, 34, d.qDim, 2, r8);
    Field(v, data, 36, d.medusa, 4, r9);
    SeeNum(v, data, 40, tie, 4);
  }

  // ----- reading -------------------------------------------------------------------------------------------

  function NumOr(v: View, o: nat, k: nat): nat {
    match v.num(o, k) case Ok(x) => x case Err(_) => 0
  }

  /** The fields, for a file known to be long enough. */
  function ReadDims(v: View): Dims {
    Dims(NumOr(v, 18, 2), NumOr(v, 20, 2), NumOr(v, 22, 2), NumOr(v, 24, 4), NumOr(v, 28, 2), NumOr(v, 30, 2),
         NumOr(v, 32, 2), NumOr(v, 34, 2), NumOr(v, 36, 4), NumOr(v, 40, 4) == TIED)
  }

  /** A header starts with the preamble and the dimensions. */
  lemma {:induction false} HeadSplit(data: bytes, p: bytes, d: bytes, t: bytes)
    requires At(data, 0, p + (d + t)) && |p| == 18 && |d| == 26
    ensures At(data, 0, p) && At(data, 18, d) && At(data, 44, t)
  {
    AtSplit(data, 0, p, d + t);
    AtSplit(data, 18, d, t);
  }

  // ----- feature bits ----------------------------------------------------------------------------------------

  function Bits(fs: seq<bool>): nat {
    if fs == [] then 0 else (if fs[0] then 1 else 0) + 2 * Bits(fs[1..])
  }

  function Bit(n: nat, i: nat): bool
    decreases i + 0
  {
    if i == 0 then n % 2 == 1 else Bit(n / 2, i - 1)
  }

  lemma {:induction false} Halved(fs: seq<bool>)
    requires fs != []
    ensures Bits(fs) / 2 == Bits(fs[1..]) && (Bits(fs) % 2 == 1 <==> fs[0])
  {
  }

  lemma {:induction false} BitOfBits(fs: seq<bool>, i: nat)
    requires i < |fs|
    ensures Bit(Bits(fs), i) == fs[i]
  {
    Halved(fs);
    if i > 0 {
      BitOfBits(fs[1..], i - 1);
    }
  }

  lemma {:induction false} BitsSmall(fs: seq<bool>)
    requires |fs| <= 8
    ensures Bits(fs) < 256
  {
    BitsBelow(fs, 8);
  }

  function Pow2(k: nat): (p: nat)
    ensures p >= 1
    decreases k + 0
  {
    if k == 0 then 1 else 2 * Pow2(k - 1)
  }

  lemma {:induction false} BitsBelow(fs: seq<bool>, k: nat)
    requires |fs| <= k
    ensures Bits(fs) < Pow2(k)
  {
    if fs != [] {
      BitsBelow(fs[1..], k - 1);
    }
  }
}
