/** How far a weight moves when it is stored as Q6_K, over exact reals (tools/bitnet_writer.py `_encode_q6k`,
    `decode_q6k`). The sixteen-bit rounding of the block factor is a function parameter.
 */
module Q6kError {

  import opened Basics
  import opened Q6kLayout
  import opened Q6kBlocks
  import opened SmallBytes

  /** Rounding to the nearest integer, halves to the even one. */
  function Round(x: real): (n: int)
    ensures -0.5 <= n as real - x <= 0.5
    ensures (x - x.Floor as real == 0.5) ==> n % 2 == 0
  {
    var f := x.Floor;
    if x - f as real < 0.5 then f else if x - f as real > 0.5 then f + 1 else if f % 2 == 0 then f else f + 1
  }

  function Clip(n: int, lo: int, hi: int): int {
    if n < lo then lo else if n > hi then hi else n
  }

  /** The largest magnitude among the first `n` values. */
  function MaxAbs(xs: seq<real>, n: nat): (m: real)
    requires n <= |xs|
    ensures m >= 0.0 && forall i :: 0 <= i < n ==> Abs(xs[i]) <= m
    ensures n > 0 ==> exists i :: 0 <= i < n && m == Abs(xs[i])
  {
    if n == 0 then 0.0
    else
      var m := MaxAbs(xs, n - 1);
      if Abs(xs[n - 1]) > m then Abs(xs[n - 1]) else m
  }

  function BlockMax(block: seq<real>): real {
    MaxAbs(block, |block|)
  }

  function Sub(block: seq<real>, k: nat): (s: seq<real>)
    requires |block| == 256 && k < 16
    ensures |s| == 16 && forall j :: 0 <= j < 16 ==> s[j] == block[16 * k + j]
  {
    block[16 * k..16 * k + 16]
  }

  /** The block factor, kept exactly. */
  function Factor(m: real): (d: real)
    requires m >= 0.0
    ensures d > 0.0
  {
    if m > 0.0 then m / 3937.0 else 0.000000001
  }

  /** The scale of a sub-block whose largest magnitude is `sub`, in a block whose largest is `m`. */
  function Scale(m: real, sub: real): (s: int)
    ensures 1 <= s <= 127
  {
    if m > 0.0 then Clip(Round(127.0 * sub / m), 1, 127) else 1
  }

  /** The step of a sub-block: its weights are stored as whole numbers of it. */
  function Step(m: real, sub: real): real
    requires m >= 0.0
  {
    Factor(m) * Scale(m, sub) as real
  }

  function Code(step: real, x: real): (q: int)
    requires step != 0.0
    ensures 0 <= q <= 63
  {
    Clip(Round(x / step) + 32, 0, 63)
  }

  function Value(step: real, q: int): real {
    step * (q - 32) as real
  }

  /** The weight a decoder makes of a factor, a scale and a code. */
  function Scaled(d: real, s: int, q: int): real {
    Value(d * s as real, q)
  }

  // ----- products, opened only where a lemma needs one -------------------------------------------------------

  ghost predicate Product(p: real, a: real, b: real) {
    forall k :: Peek(k) ==> p == a * b
  }

  lemma {:induction false} Multiplied(a: real, b: real)
    ensures Product(a * b, a, b)
  {
  }

  lemma {:induction false} Divided(y: real, b: real)
    requires b != 0.0
    ensures Product(y, b, y / b)
  {
    var q := y / b;
    assert b * q == y;
  }

  lemma {:induction false} Grows(b: real, x: real, y: real, bx: real, bz: real)
    requires b >= 0.0 && x <= y && Product(bx, b, x) && Product(bz, b, y)
    ensures bx <= bz
  {
    assert Peek(0);
  }

  /** `x` at most half a unit below `y`, both counted in units of `b`. */
  lemma {:induction false} HalfBelow(b: real, x: real, y: real, bx: real, bz: real)
    requires b > 0.0 && x >= y - 0.5 && Product(bx, b, x) && Product(bz, b, y)
    ensures bx >= bz - b / 2.0
  {
    Multiplied(b, y - 0.5);
    Grows(b, y - 0.5, x, b * (y - 0.5), bx);
    assert Peek(0);
  }

  ghost predicate Within(x: real, y: real, bound: real) {
    forall k :: Peek(k) ==> Abs(x - y) <= bound
  }

  lemma {:induction false} Opened(x: real, y: real, bound: real)
    requires Within(x, y, bound)
    ensures Abs(x - y) <= bound
  {
    assert Peek(0);
  }

  lemma {:induction false} Linear(b: real, k: real)
    ensures Product(k * b, b, k)
  {
  }

  // ----- one weight ------------------------------------------------------------------------------------------

  /** What the bound needs of a step. */
  predicate Fitting(m: real, sub: real, step: real) {
    0.0 < step <= m / 31.0 && 31.0 * step >= sub - m / 254.0
  }

  /** The exact ratio `t` behind a scale `s`, in units of the block maximum. */
  lemma {:induction false} RatioOf(m: real, sub: real) returns (t: real)
    requires m > 0.0 && 0.0 <= sub <= m
    ensures Product(127.0 * sub, m, t) && Scale(m, sub) as real >= t - 0.5
  {
    t := 127.0 * sub / m;
    Divided(127.0 * sub, m);
    if t > 127.0 {
      Linear(m, 127.0);
      Above(m, 127.0, t, 127.0 * sub);
    }
  }

  lemma {:induction false} Above(b: real, x: real, y: real, bz: real)
    requires b > 0.0 && x < y && Product(bz, b, y)
    ensures bz > b * x
  {
    assert Peek(0);
  }

  lemma {:induction false} StepFits(m: real, sub: real, s: real, t: real, scaled: real, step: real)
    requires m > 0.0 && 1.0 <= s <= 127.0 && s >= t - 0.5
    requires Product(scaled, m, s) && Product(127.0 * sub, m, t) && scaled == 3937.0 * step
    ensures Fitting(m, sub, step)
  {
    HalfBelow(m, s, t, scaled, 127.0 * sub);
    Linear(m, 1.0);
    Linear(m, 127.0);
    Grows(m, s, 127.0, scaled, 127.0 * m);
    Grows(m, 1.0, s, 1.0 * m, scaled);
  }

  /** The step is the scale times the block maximum, over 3937. */
  lemma {:induction false} StepIs(m: real, sub: real)
    requires m > 0.0
    ensures Product(3937.0 * Step(m, sub), m, Scale(m, sub) as real)
  {
    var s := Scale(m, sub) as real;
    assert 3937.0 * (m / 3937.0 * s) == m * s;
  }

  lemma {:induction false} ScaledStepFits(m: real, sub: real)
    requires m > 0.0 && 0.0 <= sub <= m
    ensures Fitting(m, sub, Step(m, sub))
  {
    var t := RatioOf(m, sub);
    StepIs(m, sub);
    StepFits(m, sub, Scale(m, sub) as real, t, 3937.0 * Step(m, sub), Step(m, sub));
  }

  /** A weight `x` of `t` steps comes back as `y`, the clipped nearest number of steps. */
  lemma {:induction false} CodeMoves(m: real, sub: real, step: real, x: real, t: real, k: int, y: real)
    requires m > 0.0 && Fitting(m, sub, step) && Abs(x) <= sub && Product(x, step, t)
    requires k == Clip(Round(t), -32, 31) && Product(y, step, k as real)
    ensures Abs(x - y) <= m / 62.0
  {
    if Round(t) > 31 {
      Grows(step, 31.0, t, y, x);
      Linear(step, 31.0);
      Grows(step, 31.0, 31.0, 31.0 * step, y);
    } else if Round(t) < -32 {
      Grows(step, t, -32.0, x, y);
      Linear(step, -32.0);
      Grows(step, -32.0, -32.0, y, -32.0 * step);
    } else {
      HalfBelow(step, k as real, t, y, x);
      HalfBelow(step, t, k as real, x, y);
    }
  }

  /** A weight of a block that is not all zero moves by at most the block maximum over 62, clipped or not. */
  lemma {:induction false} WeightMoves(m: real, sub: real, x: real)
    requires m > 0.0 && 0.0 <= sub <= m && Abs(x) <= sub
    ensures Step(m, sub) > 0.0 && Within(x, Value(Step(m, sub), Code(Step(m, sub), x)), m / 62.0)
  {
    ScaledStepFits(m, sub);
    StepMoves(m, sub, x, Step(m, sub));
  }

  lemma {:induction false} StepMoves(m: real, sub: real, x: real, step: real)
    requires m > 0.0 && Fitting(m, sub, step) && Abs(x) <= sub
    ensures Within(x, Value(step, Code(step, x)), m / 62.0)
  {
    Divided(x, step);
    var k := Code(step, x) - 32;
    Multiplied(step, k as real);
    CodeMoves(m, sub, step, x, x / step, k, step * k as real);
  }

  /** The bound is reached: half a step beside the largest weight of a block. */
  lemma {:induction false} BoundIsReached(m: real)
    requires m > 0.0
    ensures Step(m, m) > 0.0
    ensures Abs(m / 62.0 - Value(Step(m, m), Code(Step(m, m), m / 62.0))) == m / 62.0
  {
    assert 127.0 * m / m == 127.0;
    assert Scale(m, m) == 127;
    var step := Step(m, m);
    assert step == m / 31.0;
    HalfStep(step);
  }

  lemma {:induction false} HalfStep(step: real)
    requires step > 0.0
    ensures Code(step, step / 2.0) == 32
  {
    assert step / 2.0 / step == 0.5;
  }

  // ----- the arithmetic of a block, as a value ---------------------------------------------------------------

  /** The scale of a sub-block, the code of a weight, the weight of a stored code and the two readings of a byte,
      so that blocks can be reasoned about without the products and conversions behind them. */
  datatype Arith = Arith(scale: (real, real) -> int, code: (real, real, real) -> int, value: (real, int, int) -> real,
                         signed: bv8 -> int, plain: bv8 -> int)

  /** The code of a weight `x` in a block of maximum `m` and a sub-block of maximum `sub`. */
  function CodeIn(m: real, sub: real, x: real): (q: int)
    ensures 0 <= q <= 63
  {
    if m < 0.0 then 32 else StepIsPositive(m, sub); Code(Step(m, sub), x)
  }

  /** The arithmetic of the encoder and the decoders. */
  const EXACT: Arith := Arith(Scale, CodeIn, Scaled, Signed, Plain)

  ghost predicate Ranges(a: Arith) {
    && (forall m: real, sub: real :: 1 <= a.scale(m, sub) <= 127)
    && (forall m: real, sub: real, x: real :: 0 <= a.code(m, sub, x) <= 63)
  }

  ghost predicate ReadsBytes(a: Arith) {
    forall n :: 0 <= n < 128 ==> a.signed(ByteOf(n)) == n && a.plain(ByteOf(n)) == n
  }

  ghost predicate KeepsZero(a: Arith) {
    forall k :: Peek(k) ==>
      && (forall m: real, sub: real :: a.code(m, sub, 0.0) == 32)
      && (forall d: real, s: int :: a.value(d, s, 32) == 0.0)
  }

  ghost predicate Close(a: Arith) {
    forall m: real, sub: real, x: real :: m > 0.0 && 0.0 <= sub <= m && Abs(x) <= sub ==>
      Within(x, a.value(Factor(m), a.scale(m, sub), a.code(m, sub, x)), m / 62.0)
  }

  lemma {:induction false} StepIsPositive(m: real, sub: real)
    requires m >= 0.0
    ensures Step(m, sub) > 0.0
  {
    var d, s := Factor(m), Scale(m, sub) as real;
    Multiplied(d, s);
    Linear(d, 1.0);
    Grows(d, 1.0, s, 1.0 * d, d * s);
  }

  lemma {:induction false} ExactRanges()
    ensures Ranges(EXACT)
  {
  }

  lemma {:induction false} ExactReadsBytes()
    ensures ReadsBytes(EXACT)
  {
    forall n | 0 <= n < 128 ensures EXACT.signed(ByteOf(n)) == n && EXACT.plain(ByteOf(n)) == n {
      SignedBack(n);
      PlainBack(n);
    }
  }

  lemma {:induction false} ZeroCode(m: real, sub: real)
    ensures CodeIn(m, sub, 0.0) == 32
  {
    if m >= 0.0 {
      StepIsPositive(m, sub);
      ZeroStep(Step(m, sub));
    }
  }

  lemma {:induction false} ZeroStep(step: real)
    requires step != 0.0
    ensures Code(step, 0.0) == 32
  {
    assert 0.0 / step == 0.0;
  }

  lemma {:induction false} ExactKeepsZero()
    ensures KeepsZero(EXACT)
  {
    forall m: real, sub: real ensures EXACT.code(m, sub, 0.0) == 32 {
      ZeroCode(m, sub);
    }
  }

  lemma {:induction false} ExactMoves(m: real, sub: real, x: real, step: real, s: int, q: int, y: real)
    requires m > 0.0 && 0.0 <= sub <= m && Abs(x) <= sub && step == Step(m, sub)
    requires s == Scale(m, sub) && q == CodeIn(m, sub, x) && y == Scaled(Factor(m), s, q)
    ensures Within(x, y, m / 62.0)
  {
    WeightMoves(m, sub, x);
  }

  lemma {:induction false} ExactIsClose()
    ensures Close(EXACT)
  {
    forall m: real, sub: real, x: real | m > 0.0 && 0.0 <= sub <= m && Abs(x) <= sub
      ensures Within(x, EXACT.value(Factor(m), EXACT.scale(m, sub), EXACT.code(m, sub, x)), m / 62.0)
    {
      var s, q := EXACT.scale(m, sub), EXACT.code(m, sub, x);
      ExactMoves(m, sub, x, Step(m, sub), s, q, EXACT.value(Factor(m), s, q));
    }
  }

  // ----- one block -------------------------------------------------------------------------------------------

  function SubMax(block: seq<real>, k: nat): (m: real)
    requires |block| == 256 && k < 16
  {
    MaxAbs(Sub(block, k), 16)
  }

  lemma {:induction false} SubBelowBlock(block: seq<real>, k: nat)
    requires |block| == 256 && k < 16
    ensures 0.0 <= SubMax(block, k) <= BlockMax(block)
  {
    var sub := Sub(block, k);
    var i :| 0 <= i < 16 && SubMax(block, k) == Abs(sub[i]);
    assert sub[i] == block[16 * k + i];
  }

  lemma {:induction false} BelowSub(block: seq<real>, e: nat)
    requires |block| == 256 && e < 256
    ensures Abs(block[e]) <= SubMax(block, e / 16)
  {
    var sub := Sub(block, e / 16);
    assert sub[e % 16] == block[e];
  }

  function CodeOf(a: Arith, block: seq<real>, e: nat): int
    requires |block| == 256 && e < 256
  {
    a.code(BlockMax(block), SubMax(block, e / 16), block[e])
  }

  function ScaleOf(a: Arith, block: seq<real>, k: nat): int
    requires |block| == 256 && k < 16
  {
    a.scale(BlockMax(block), SubMax(block, k))
  }

  function CodeBytes(a: Arith, block: seq<real>): (codes: bytes8)
    requires Ranges(a) && |block| == 256
    ensures |codes| == 256 && forall e :: 0 <= e < 256 ==> codes[e] == ByteOf(CodeOf(a, block, e))
  {
    seq(256, e requires 0 <= e < 256 => ByteOf(CodeOf(a, block, e)))
  }

  function ScaleBytes(a: Arith, block: seq<real>): (scales: bytes8)
    requires Ranges(a) && |block| == 256
    ensures |scales| == 16 && forall k :: 0 <= k < 16 ==> scales[k] == ByteOf(ScaleOf(a, block, k))
  {
    seq(16, k requires 0 <= k < 16 => ByteOf(ScaleOf(a, block, k)))
  }

  lemma {:induction false} CodesFit(a: Arith, block: seq<real>)
    requires Ranges(a) && |block| == 256
    ensures forall e :: 0 <= e < 256 ==> CodeBytes(a, block)[e] < 64
  {
    forall e | 0 <= e < 256 ensures CodeBytes(a, block)[e] < 64 {
      SixBits(CodeOf(a, block, e));
    }
  }

  /** What the encoder stores for a block; `half` gives the two bytes of the block factor. */
  function Quantised(a: Arith, half: real -> (bv8, bv8), block: seq<real>): (k: Block)
    requires Ranges(a) && |block| == 256
    ensures IsWhole(k)
  {
    CodesFit(a, block);
    var d := half(Factor(BlockMax(block)));
    Block(CodeBytes(a, block), ScaleBytes(a, block), d.0, d.1)
  }

  /** The weight made of what is stored; `back` reads the factor's two bytes. */
  function Dequant(a: Arith, back: (bv8, bv8) -> real, w: Weight): real {
    a.value(back(w.d0, w.d1), a.signed(w.scale), a.plain(w.code))
  }

  /** The two bytes of the block's factor hold it exactly. */
  predicate KeepsFactor(half: real -> (bv8, bv8), back: (bv8, bv8) -> real, block: seq<real>) {
    var d := Factor(BlockMax(block));
    back(half(d).0, half(d).1) == d
  }

  lemma {:induction false} DequantOf(a: Arith, back: (bv8, bv8) -> real, w: Weight, d: real, s: int, q: int)
    requires ReadsBytes(a) && back(w.d0, w.d1) == d && 0 <= s < 128 && 0 <= q < 64 && w.scale == ByteOf(s) && w.code == ByteOf(q)
    ensures Dequant(a, back, w) == a.value(d, s, q)
  {
  }

  function EncodeBlock(a: Arith, half: real -> (bv8, bv8)): (enc: seq<real> -> bytes8)
    requires Ranges(a)
    ensures Encodes(enc)
  {
    (block: seq<real>) => if |block| == 256 then BlockBytes(Quantised(a, half, block)) else []
  }

  /** What a decoder reads for element `e` of a stored block. */
  lemma {:induction false} StoredWeight(a: Arith, half: real -> (bv8, bv8), block: seq<real>, e: nat)
    requires Ranges(a) && |block| == 256 && e < 256
    ensures var d := half(Factor(BlockMax(block)));
            InBlock(EncodeBlock(a, half)(block), e)
            == Weight(ByteOf(CodeOf(a, block, e)), ByteOf(ScaleOf(a, block, e / 16)), d.0, d.1)
  {
    BlockBack(Quantised(a, half, block), e);
  }

  lemma {:induction false} StoredValue(a: Arith, half: real -> (bv8, bv8), back: (bv8, bv8) -> real, block: seq<real>, e: nat)
    requires Ranges(a) && ReadsBytes(a) && |block| == 256 && e < 256
    ensures var d := half(Factor(BlockMax(block)));
            Dequant(a, back, InBlock(EncodeBlock(a, half)(block), e))
            == a.value(back(d.0, d.1), ScaleOf(a, block, e / 16), CodeOf(a, block, e))
  {
    var d := half(Factor(BlockMax(block)));
    StoredWeight(a, half, block, e);
    DequantOf(a, back, InBlock(EncodeBlock(a, half)(block), e), back(d.0, d.1), ScaleOf(a, block, e / 16), CodeOf(a, block, e));
  }

  lemma {:induction false} ZeroElement(a: Arith, half: real -> (bv8, bv8), back: (bv8, bv8) -> real, block: seq<real>, e: nat)
    requires Ranges(a) && ReadsBytes(a) && KeepsZero(a) && |block| == 256 && e < 256 && block[e] == 0.0
    ensures Dequant(a, back, InBlock(EncodeBlock(a, half)(block), e)) == 0.0
  {
    var d := half(Factor(BlockMax(block)));
    StoredValue(a, half, back, block, e);
    ZeroValue(a, BlockMax(block), SubMax(block, e / 16), block[e], back(d.0, d.1), ScaleOf(a, block, e / 16));
  }

  lemma {:induction false} ZeroValue(a: Arith, m: real, sub: real, x: real, d: real, s: int)
    requires KeepsZero(a) && x == 0.0
    ensures a.value(d, s, a.code(m, sub, x)) == 0.0
  {
    assert Peek(0);
  }

  lemma {:induction false} NoMaxNoWeight(block: seq<real>, e: nat)
    requires |block| == 256 && e < 256 && BlockMax(block) <= 0.0
    ensures block[e] == 0.0
  {
    assert Abs(block[e]) <= BlockMax(block);
  }

  lemma {:induction false} ElementMoves(a: Arith, half: real -> (bv8, bv8), back: (bv8, bv8) -> real, block: seq<real>, e: nat)
    requires Ranges(a) && ReadsBytes(a) && Close(a) && |block| == 256 && e < 256 && KeepsFactor(half, back, block) && BlockMax(block) > 0.0
    ensures Abs(block[e] - Dequant(a, back, InBlock(EncodeBlock(a, half)(block), e))) <= BlockMax(block) / 62.0
  {
    StoredValue(a, half, back, block, e);
    SubBelowBlock(block, e / 16);
    BelowSub(block, e);
    Opened(block[e], Dequant(a, back, InBlock(EncodeBlock(a, half)(block), e)), BlockMax(block) / 62.0);
  }

  lemma {:induction false} BlockMoves(a: Arith, half: real -> (bv8, bv8), back: (bv8, bv8) -> real, block: seq<real>, e: nat)
    requires Ranges(a) && ReadsBytes(a) && Close(a) && KeepsZero(a) && |block| == 256 && e < 256 && KeepsFactor(half, back, block)
    ensures Abs(block[e] - Dequant(a, back, InBlock(EncodeBlock(a, half)(block), e))) <= BlockMax(block) / 62.0
  {
    if BlockMax(block) > 0.0 {
      ElementMoves(a, half, back, block, e);
    } else {
      NoMaxNoWeight(block, e);
      ZeroElement(a, half, back, block, e);
    }
  }

  // ----- whole tensors ---------------------------------------------------------------------------------------

  /** What is decoded from a block encoded by `enc` is close to the block, and zeros are kept. */
  ghost predicate Faithful(a: Arith, half: real -> (bv8, bv8), back: (bv8, bv8) -> real, enc: seq<real> -> bytes8) {
    forall block: seq<real>, e: nat :: |block| == 256 && |enc(block)| == 210 && e < 256 ==>
      FaithfulOn(a, half, back, enc(block), block, e)
  }

  ghost predicate FaithfulOn(a: Arith, half: real -> (bv8, bv8), back: (bv8, bv8) -> real, stored: bytes8, block: seq<real>, e: nat)
    requires |block| == 256 && |stored| == 210 && e < 256
  {
    forall k :: Peek(k) ==>
      && (KeepsFactor(half, back, block) ==>
            Abs(block[e] - Dequant(a, back, InBlock(stored, e))) <= BlockMax(block) / 62.0)
      && (block[e] == 0.0 ==> Dequant(a, back, InBlock(stored, e)) == 0.0)
  }

  lemma {:induction false} FaithfulBlock(a: Arith, half: real -> (bv8, bv8), back: (bv8, bv8) -> real, block: seq<real>, e: nat)
    requires Ranges(a) && ReadsBytes(a) && Close(a) && KeepsZero(a) && |block| == 256 && e < 256
    ensures FaithfulOn(a, half, back, EncodeBlock(a, half)(block), block, e)
  {
    if KeepsFactor(half, back, block) {
      BlockMoves(a, half, back, block, e);
    }
    if block[e] == 0.0 {
      ZeroElement(a, half, back, block, e);
    }
  }

  lemma {:induction false} EncodeIsFaithful(a: Arith, half: real -> (bv8, bv8), back: (bv8, bv8) -> real)
    requires Ranges(a) && ReadsBytes(a) && Close(a) && KeepsZero(a)
    ensures Faithful(a, half, back, EncodeBlock(a, half))
  {
    var enc := EncodeBlock(a, half);
    forall block: seq<real>, e: nat | |block| == 256 && |enc(block)| == 210 && e < 256
      ensures FaithfulOn(a, half, back, enc(block), block, e)
    {
      FaithfulBlock(a, half, back, block, e);
    }
  }

  lemma {:induction false} FaithfulAt(a: Arith, half: real -> (bv8, bv8), back: (bv8, bv8) -> real,
                                      enc: seq<real> -> bytes8, block: seq<real>, e: nat)
    requires Faithful(a, half, back, enc) && |block| == 256 && |enc(block)| == 210 && e < 256
    ensures KeepsFactor(half, back, block) ==>
              Abs(block[e] - Dequant(a, back, InBlock(enc(block), e))) <= BlockMax(block) / 62.0
    ensures block[e] == 0.0 ==> Dequant(a, back, InBlock(enc(block), e)) == 0.0
  {
    assert FaithfulOn(a, half, back, enc(block), block, e);
    assert Peek(0);
  }

  lemma {:induction false} ValueMoves(a: Arith, half: real -> (bv8, bv8), back: (bv8, bv8) -> real,
                                      enc: seq<real> -> bytes8, vals: seq<real>, i: nat)
    requires Encodes(enc) && Faithful(a, half, back, enc) && i < |vals|
    ensures var w := Decoded(Flat(enc, vals), |vals|, BlockCount(vals))[i]; var block := Padded(vals, i / 256);
            && w.Some?
            && (KeepsFactor(half, back, block) ==> Abs(vals[i] - Dequant(a, back, w.value)) <= BlockMax(block) / 62.0)
            && (vals[i] == 0.0 ==> Dequant(a, back, w.value) == 0.0)
  {
    DecodedOfEncoded(enc, vals, i);
    FaithfulAt(a, half, back, enc, Padded(vals, i / 256), i % 256);
  }

  /** The bytes the encoder makes of a tensor's values. */
  function TensorBytes(half: real -> (bv8, bv8), vals: seq<real>): bytes8 {
    ExactRanges();
    Flat(EncodeBlock(EXACT, half), vals)
  }

  /** For any number of values, both decoders return for each a weight within its block's maximum over 62; and a
      zero comes back as zero whatever is read for the block factor, so blocks of zeros decode to zeros. */
  lemma {:induction false} TensorMoves(half: real -> (bv8, bv8), back: (bv8, bv8) -> real, vals: seq<real>, i: nat)
    requires i < |vals|
    ensures var w := Decoded(TensorBytes(half, vals), |vals|, BlockCount(vals))[i]; var block := Padded(vals, i / 256);
            && w.Some?
            && (KeepsFactor(half, back, block) ==> Abs(vals[i] - Dequant(EXACT, back, w.value)) <= BlockMax(block) / 62.0)
            && (vals[i] == 0.0 ==> Dequant(EXACT, back, w.value) == 0.0)
  {
    ExactRanges();
    ExactReadsBytes();
    ExactIsClose();
    ExactKeepsZero();
    EncodeIsFaithful(EXACT, half, back);
    ValueMoves(EXACT, half, back, EncodeBlock(EXACT, half), vals, i);
  }

  // ----- zeros are recognised --------------------------------------------------------------------------------

  lemma {:induction false} LargestCode(m: real, x: real, t: real)
    requires m > 0.0 && Abs(x) == m && t == x / (m / 31.0)
    ensures t == 31.0 || t == -31.0
  {
    assert m / (m / 31.0) == 31.0;
    if x < 0.0 {
      assert x == -m && x / (m / 31.0) == -31.0;
    }
  }

  /** The largest weight of a block is never stored as zero. */
  lemma {:induction false} LargestIsNotZero(m: real, x: real)
    requires m > 0.0 && Abs(x) == m
    ensures CodeIn(m, m, x) != 32
  {
    assert 127.0 * m / m == 127.0;
    assert Scale(m, m) == 127;
    assert Step(m, m) == m / 31.0;
    LargestCode(m, x, x / (m / 31.0));
  }

  lemma {:induction false} SubOfLargest(block: seq<real>, e: nat)
    requires |block| == 256 && e < 256 && Abs(block[e]) == BlockMax(block)
    ensures SubMax(block, e / 16) == BlockMax(block)
  {
    SubBelowBlock(block, e / 16);
    BelowSub(block, e);
  }

  lemma {:induction false} SameCodes(half: real -> (bv8, bv8), block: seq<real>, other: seq<real>, e: nat)
    requires Ranges(EXACT) && |block| == 256 && |other| == 256 && e < 256
    requires EncodeBlock(EXACT, half)(block) == EncodeBlock(EXACT, half)(other)
    ensures CodeOf(EXACT, block, e) == CodeOf(EXACT, other, e)
  {
    StoredWeight(EXACT, half, block, e);
    StoredWeight(EXACT, half, other, e);
    PlainBack(CodeOf(EXACT, block, e));
    PlainBack(CodeOf(EXACT, other, e));
  }

  lemma {:induction false} LargestHasCode(block: seq<real>, k: nat)
    requires |block| == 256 && k < 256 && BlockMax(block) == Abs(block[k]) > 0.0
    ensures CodeOf(EXACT, block, k) != 32
  {
    SubOfLargest(block, k);
    LargestIsNotZero(BlockMax(block), block[k]);
  }

  lemma {:induction false} ZeroHasNone(zeros: seq<real>, k: nat)
    requires |zeros| == 256 && k < 256 && zeros[k] == 0.0
    ensures CodeOf(EXACT, zeros, k) == 32
  {
    ZeroCode(BlockMax(zeros), SubMax(zeros, k / 16));
  }

  lemma {:induction false} OnlyZeros(half: real -> (bv8, bv8), block: seq<real>, e: nat)
    requires Ranges(EXACT) && |block| == 256 && e < 256
    requires EncodeBlock(EXACT, half)(block) == EncodeBlock(EXACT, half)(Padded([], 0))
    ensures block[e] == 0.0
  {
    if BlockMax(block) > 0.0 {
      var k :| 0 <= k < 256 && BlockMax(block) == Abs(block[k]);
      SameCodes(half, block, Padded([], 0), k);
      LargestHasCode(block, k);
      ZeroHasNone(Padded([], 0), k);
    } else {
      NoMaxNoWeight(block, e);
    }
  }

  /** With the real encoder, row-by-row encoding gives the flat bytes for every matrix of a shape if and only if the
      columns fill whole blocks or there is at most one row. */
  lemma {:induction false} PerRowCondition(half: real -> (bv8, bv8), n: nat, cols: nat)
    ensures Ranges(EXACT) && (RowsAreFlat(EncodeBlock(EXACT, half), n, cols) <==> n <= 1 || cols % 256 == 0)
  {
    ExactRanges();
    var enc := EncodeBlock(EXACT, half);
    forall block: seq<real>, e: nat | |block| == 256 && e < 256 && enc(block) == enc(Padded([], 0)) ensures block[e] == 0.0 {
      OnlyZeros(half, block, e);
    }
    RowsAreFlatWhen(enc, n, cols);
  }
}
