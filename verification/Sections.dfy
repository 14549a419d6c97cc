/** The records model files are made of, and how a reader that knows only their shapes gets them back
    (tools/export_no_std.py, tools/bitnet_writer.py, tools/chat_v6.py).

    An f32 is its bit pattern, a number below 2^32. A Q6_K payload is kept as bytes here.
 */
module Sections {
  import opened Basics
  import opened Wire
  import opened Trits

  datatype Name = Plain(text: string) | Expert(e: nat, part: string) | Layer(l: nat, part: string) | MaskNo(i: nat)

  /** Cells of a table, counted row by row. */
  function Area(rows: nat, cols: nat): nat {
    if rows == 0 then 0 else cols + Area(rows - 1, cols)
  }

  lemma {:induction false} AreaIsProduct(rows: nat, cols: nat)
    ensures Area(rows, cols) == rows * cols
  {
    if rows > 0 {
      AreaIsProduct(rows - 1, cols);
    }
  }

  /** A pair of low-rank factors with their shapes. */
  datatype Factors = Factors(aRows: nat, aCols: nat, a: seq<nat>, bRows: nat, bCols: nat, b: seq<nat>)

  datatype Section =
    | Ternary(name: Name, trits: seq<trit>, scales: seq<nat>)
    | Floats(name: Name, xs: seq<nat>)
    | Shorts(name: Name, ys: seq<int>)
    | Q6k(name: Name, payload: bytes, scale: nat)
    | Exact(name: Name, xs: seq<nat>, scale: nat)
    | Mask(name: Name, trits: seq<trit>)
    | Tied(name: Name)
    | Lora(name: Name, pairs: seq<Factors>)

  /** What the reader knows before it reads a record. */
  datatype Shape =
    | TernaryOf(name: Name, n: nat, scales: nat)
    | FloatsOf(name: Name, n: nat)
    | ShortsOf(name: Name, n: nat)
    | Q6kOf(name: Name, n: nat)
    | ExactOf(name: Name, n: nat)
    | MaskOf(name: Name)
    | TiedOf(name: Name)
    | LoraOf(name: Name, n: nat)

  function Q6kSize(n: nat): nat {
    (n + 255) / 256 * 210
  }

  // ----- writing -----------------------------------------------------------------------------------------

  function F32s(xs: seq<nat>): (b: bytes)
    ensures |b| == 4 * |xs|
  {
    Cells(xs, 4, |xs|)
  }

  /** Two's complement; used only on 16-bit values. */
  function Unsigned(y: int): nat {
    if y >= 0 then y else if y + HALF >= 0 then y + HALF else 0
  }

  predicate AllShort(ys: seq<int>) {
    forall i :: 0 <= i < |ys| ==> -HALF / 2 <= ys[i] < HALF / 2
  }

  function AllUnsigned(ys: seq<int>): (xs: seq<nat>)
    ensures |xs| == |ys|
  {
    seq(|ys|, i requires 0 <= i < |ys| => Unsigned(ys[i]))
  }

  function I16s(ys: seq<int>): (b: bytes)
    ensures |b| == 2 * |ys|
  {
    Cells(AllUnsigned(ys), 2, |ys|)
  }

  function FactorBytes(f: Factors): bytes {
    LE(f.aRows, 2) + LE(f.aCols, 2) + LE(f.bRows, 2) + LE(f.bCols, 2) + F32s(f.a) + F32s(f.b)
  }

  function AllFactorBytes(pairs: seq<Factors>): (bs: seq<bytes>)
    ensures |bs| == |pairs|
  {
    seq(|pairs|, i requires 0 <= i < |pairs| => FactorBytes(pairs[i]))
  }

  /** `n` bit patterns. */
  predicate FloatsHas(xs: seq<nat>, n: nat) {
    |xs| == n && AllBelow(xs, WORD)
  }

  /** Numbers fit the widths they are written in. */
  predicate FactorsFit(f: Factors) {
    && f.aRows < HALF && f.aCols < HALF && f.bRows < HALF && f.bCols < HALF
    && |f.a| == Area(f.aRows, f.aCols) && |f.b| == Area(f.bRows, f.bCols) && AllBelow(f.a, WORD) && AllBelow(f.b, WORD)
  }

  predicate Fits(s: Section) {
    match s
    case Ternary(_, trits, scales) => AllBelow(scales, WORD)
    case Floats(_, xs) => AllBelow(xs, WORD)
    case Shorts(_, ys) => AllShort(ys)
    case Q6k(_, payload, scale) => scale < WORD
    case Exact(_, xs, scale) => AllBelow(xs, WORD) && scale < WORD
    case Mask(_, trits) => |trits| < HALF
    case Tied(_) => true
    case Lora(_, pairs) => forall i :: 0 <= i < |pairs| ==> FactorsFit(pairs[i])
  }

  function Bytes(s: Section): bytes {
    match s
    case Ternary(_, trits, scales) => Pack(trits) + F32s(scales)
    case Floats(_, xs) => F32s(xs)
    case Shorts(_, ys) => I16s(ys)
    case Q6k(_, payload, scale) => payload + LE(scale, 4)
    case Exact(_, xs, scale) => F32s(xs) + LE(scale, 4)
    case Mask(_, trits) => LE(|trits|, 2) + Pack(trits)
    case Tied(_) => []
    case Lora(_, pairs) => Join(AllFactorBytes(pairs), |pairs|)
  }

  // ----- reading -----------------------------------------------------------------------------------------

  /** What a reader can ask of a file: the number in some bytes, so many f32s, i16s, trits or raw bytes at an
      offset. Each fails when the file is too short. */
  datatype View = View(
    num: (nat, nat) -> Result<nat>,
    f32s: (nat, nat) -> Result<seq<nat>>,
    shorts: (nat, nat) -> Result<seq<int>>,
    trits: (nat, nat) -> Result<seq<trit>>,
    raw: (nat, nat) -> Result<bytes>)

  function NumIn(data: bytes, o: nat, k: nat): Result<nat> {
    if o + k <= |data| then Ok(NumAt(data, o, k)) else Err("truncated")
  }

  function F32sIn(data: bytes, o: nat, n: nat): Result<seq<nat>> {
    if o + 4 * n <= |data| then Ok(CellsAt(data, o, 4, n)) else Err("truncated")
  }

  /** Two's complement read back. */
  function Signed(x: nat): int {
    if x < HALF / 2 then x else x - HALF
  }

  function AllSigned(xs: seq<nat>, k: nat): seq<int>
    requires k <= |xs|
  {
    if k == 0 then [] else AllSigned(xs, k - 1) + [Signed(xs[k - 1])]
  }

  function ShortsIn(data: bytes, o: nat, n: nat): Result<seq<int>> {
    if o + 2 * n <= |data| then Ok(AllSigned(CellsAt(data, o, 2, n), n)) else Err("truncated")
  }

  function TritsIn(data: bytes, o: nat, n: nat): Result<seq<trit>> {
    if o + PackedLen(n) <= |data| then Ok(Unpack(data[o..o + PackedLen(n)], n)) else Err("truncated")
  }

  function RawIn(data: bytes, o: nat, n: nat): Result<bytes> {
    if o + n <= |data| then Ok(data[o..o + n]) else Err("truncated")
  }

  function ViewOf(data: bytes): View {
    View((o: nat, k: nat) => NumIn(data, o, k), (o: nat, n: nat) => F32sIn(data, o, n),
         (o: nat, n: nat) => ShortsIn(data, o, n), (o: nat, n: nat) => TritsIn(data, o, n),
         (o: nat, n: nat) => RawIn(data, o, n))
  }

  function ReadTernary(v: View, o: nat, name: Name, n: nat, scales: nat): Result<(Section, nat)> {
    match v.trits(o, n)
    case Err(e) => Err(e)
    case Ok(ts) =>
      match v.f32s(o + PackedLen(n), scales)
      case Err(e) => Err(e)
      case Ok(xs) => Ok((Ternary(name, ts, xs), o + PackedLen(n) + 4 * scales))
  }

  function ReadFloats(v: View, o: nat, name: Name, n: nat): Result<(Section, nat)> {
    match v.f32s(o, n)
    case Err(e) => Err(e)
    case Ok(xs) => Ok((Floats(name, xs), o + 4 * n))
  }

  function ReadShorts(v: View, o: nat, name: Name, n: nat): Result<(Section, nat)> {
    match v.shorts(o, n)
    case Err(e) => Err(e)
    case Ok(ys) => Ok((Shorts(name, ys), o + 2 * n))
  }

  function ReadQ6k(v: View, o: nat, name: Name, n: nat): Result<(Section, nat)> {
    match v.raw(o, Q6kSize(n))
    case Err(e) => Err(e)
    case Ok(payload) =>
      match v.num(o + Q6kSize(n), 4)
      case Err(e) => Err(e)
      case Ok(x) => Ok((Q6k(name, payload, x), o + Q6kSize(n) + 4))
  }

  function ReadExact(v: View, o: nat, name: Name, n: nat): Result<(Section, nat)> {
    match v.f32s(o, n)
    case Err(e) => Err(e)
    case Ok(xs) =>
      match v.num(o + 4 * n, 4)
      case Err(e) => Err(e)
      case Ok(x) => Ok((Exact(name, xs, x), o + 4 * n + 4))
  }

  function ReadMask(v: View, o: nat, name: Name): Result<(Section, nat)> {
    match v.num(o, 2)
    case Err(e) => Err(e)
    case Ok(n) =>
      match v.trits(o + 2, n)
      case Err(e) => Err(e)
      case Ok(ts) => Ok((Mask(name, ts), o + 2 + PackedLen(n)))
  }

  function ReadSides(v: View, o: nat): Result<(nat, nat, nat, nat)> {
    var p, q, r, s := v.num(o, 2), v.num(o + 2, 2), v.num(o + 4, 2), v.num(o + 6, 2);
    if p.Ok? && q.Ok? && r.Ok? && s.Ok? then Ok((p.value, q.value, r.value, s.value)) else Err("truncated")
  }

  function ReadFactors(v: View, o: nat): Result<(Factors, nat)> {
    match ReadSides(v, o)
    case Err(e) => Err(e)
    case Ok(d) =>
      var (m, n) := (Area(d.0, d.1), Area(d.2, d.3));
      match v.f32s(o + 8, m)
      case Err(e) => Err(e)
      case Ok(a) =>
        match v.f32s(o + 8 + 4 * m, n)
        case Err(e) => Err(e)
        case Ok(b) => Ok((Factors(d.0, d.1, a, d.2, d.3, b), o + 8 + 4 * m + 4 * n))
  }

  function FactorReader(v: View): Reader<Factors> {
    (o: nat) => ReadFactors(v, o)
  }

  function ReadLora(read: Reader<Factors>, o: nat, name: Name, n: nat): Result<(Section, nat)> {
    match ReadMany(read, o, n)
    case Err(e) => Err(e)
    case Ok(fs) => Ok((Lora(name, fs.0), fs.1))
  }

  function Read(v: View, o: nat, sh: Shape): Result<(Section, nat)> {
    match sh
    case TernaryOf(name, n, scales) => ReadTernary(v, o, name, n, scales)
    case FloatsOf(name, n) => ReadFloats(v, o, name, n)
    case ShortsOf(name, n) => ReadShorts(v, o, name, n)
    case Q6kOf(name, n) => ReadQ6k(v, o, name, n)
    case ExactOf(name, n) => ReadExact(v, o, name, n)
    case MaskOf(name) => ReadMask(v, o, name)
    case TiedOf(name) => Ok((Tied(name), o))
    case LoraOf(name, n) => ReadLora(FactorReader(v), o, name, n)
  }

  /** A record has the shape the reader expects. */
  predicate Matches(s: Section, sh: Shape) {
    match sh
    case TernaryOf(name, n, scales) => s.Ternary? && s.name == name && |s.trits| == n && |s.scales| == scales
    case FloatsOf(name, n) => s.Floats? && s.name == name && |s.xs| == n
    case ShortsOf(name, n) => s.Shorts? && s.name == name && |s.ys| == n
    case Q6kOf(name, n) => s.Q6k? && s.name == name && |s.payload| == Q6kSize(n)
    case ExactOf(name, n) => s.Exact? && s.name == name && |s.xs| == n
    case MaskOf(name) => s.Mask? && s.name == name
    case TiedOf(name) => s == Tied(name)
    case LoraOf(name, n) => s.Lora? && s.name == name && |s.pairs| == n
  }

  // ----- a view sees what stands in the file ------------------------------------------------------------

  ghost predicate SeesNums(v: View, data: bytes) {
    forall o: nat, x: nat, k: nat :: x < Limit(k) && At(data, o, LE(x, k)) ==> v.num(o, k) == Ok(x)
  }

  ghost predicate SeesF32s(v: View, data: bytes) {
    forall o: nat, xs :: AllBelow(xs, WORD) && At(data, o, F32s(xs)) ==> v.f32s(o, |xs|) == Ok(xs)
  }

  ghost predicate SeesShorts(v: View, data: bytes) {
    forall o: nat, ys :: AllShort(ys) && At(data, o, I16s(ys)) ==> v.shorts(o, |ys|) == Ok(ys)
  }

  ghost predicate SeesTrits(v: View, data: bytes) {
    forall o: nat, ts :: At(data, o, Pack(ts)) ==> v.trits(o, |ts|) == Ok(ts)
  }

  ghost predicate SeesRaw(v: View, data: bytes) {
    forall o: nat, x {:trigger v.raw(o, |x|), At(data, o, x)} :: At(data, o, x) ==> v.raw(o, |x|) == Ok(x)
  }

  ghost predicate Sees(v: View, data: bytes) {
    SeesNums(v, data) && SeesF32s(v, data) && SeesShorts(v, data) && SeesTrits(v, data) && SeesRaw(v, data)
  }

  lemma {:induction false} F32sBack(data: bytes, o: nat, xs: seq<nat>)
    requires AllBelow(xs, WORD) && At(data, o, F32s(xs))
    ensures F32sIn(data, o, |xs|) == Ok(xs)
  {
    CellsBack(data, o, xs, 4, |xs|);
    assert xs[..|xs|] == xs;
  }

  lemma {:induction false} SignedBack(ys: seq<int>, k: nat)
    requires AllShort(ys) && k <= |ys|
    ensures AllSigned(AllUnsigned(ys), k) == ys[..k]
  {
    if k > 0 {
      SignedBack(ys, k - 1);
      assert ys[..k] == ys[..k - 1] + [ys[k - 1]];
    }
  }

  lemma {:induction false} ShortsBack(data: bytes, o: nat, ys: seq<int>)
    requires AllShort(ys) && At(data, o, I16s(ys))
    ensures ShortsIn(data, o, |ys|) == Ok(ys)
  {
    var xs := AllUnsigned(ys);
    CellsBack(data, o, xs, 2, |xs|);
    SignedBack(ys, |ys|);
    assert xs[..|xs|] == xs && ys[..|ys|] == ys;
  }

  lemma {:induction false} TritsBack(data: bytes, o: nat, ts: seq<trit>)
    requires At(data, o, Pack(ts))
    ensures TritsIn(data, o, |ts|) == Ok(ts)
  {
    AtSlice(data, o, Pack(ts));
    UnpackInvertsPack(ts);
  }

  lemma {:induction false} ViewSees(data: bytes)
    ensures Sees(ViewOf(data), data)
  {
    var v := ViewOf(data);
    forall o: nat, x: nat, k: nat | x < Limit(k) && At(data, o, LE(x, k)) ensures v.num(o, k) == Ok(x) {
      NumBack(data, o, x, k);
    }
    forall o: nat, xs | AllBelow(xs, WORD) && At(data, o, F32s(xs)) ensures v.f32s(o, |xs|) == Ok(xs) {
      F32sBack(data, o, xs);
    }
    forall o: nat, ys | AllShort(ys) && At(data, o, I16s(ys)) ensures v.shorts(o, |ys|) == Ok(ys) {
      ShortsBack(data, o, ys);
    }
    forall o: nat, ts | At(data, o, Pack(ts)) ensures v.trits(o, |ts|) == Ok(ts) {
      TritsBack(data, o, ts);
    }
    forall o: nat, x | At(data, o, x) ensures v.raw(o, |x|) == Ok(x) {
      AtSlice(data, o, x);
    }
  }

  // ----- reading back what was written ------------------------------------------------------------------

  lemma {:induction false} SeeNum(v: View, data: bytes, o: nat, x: nat, k: nat)
    requires SeesNums(v, data) && x < Limit(k) && At(data, o, LE(x, k))
    ensures v.num(o, k) == Ok(x)
  {
  }

  lemma {:induction false} SeeF32s(v: View, data: bytes, o: nat, xs: seq<nat>)
    requires SeesF32s(v, data) && AllBelow(xs, WORD) && At(data, o, F32s(xs))
    ensures v.f32s(o, |xs|) == Ok(xs)
  {
  }

  lemma {:induction false} SeeTrits(v: View, data: bytes, o: nat, ts: seq<trit>)
    requires SeesTrits(v, data) && At(data, o, Pack(ts))
    ensures v.trits(o, |ts|) == Ok(ts)
  {
  }

  lemma {:induction false} TernaryBack(v: View, data: bytes, o: nat, s: Section)
    requires Sees(v, data) && s.Ternary? && Fits(s) && At(data, o, Bytes(s))
    ensures ReadTernary(v, o, s.name, |s.trits|, |s.scales|) == Ok((s, o + |Bytes(s)|))
  {
    AtSplit(data, o, Pack(s.trits), F32s(s.scales));
    SeeTrits(v, data, o, s.trits);
    SeeF32s(v, data, o + PackedLen(|s.trits|), s.scales);
  }

  lemma {:induction false} Q6kBack(v: View, data: bytes, o: nat, s: Section, n: nat)
    requires Sees(v, data) && s.Q6k? && Fits(s) && |s.payload| == Q6kSize(n) && At(data, o, Bytes(s))
    ensures ReadQ6k(v, o, s.name, n) == Ok((s, o + |Bytes(s)|))
  {
    AtSplit(data, o, s.payload, LE(s.scale, 4));
    SeeNum(v, data, o + |s.payload|, s.scale, 4);
  }

  lemma {:induction false} ExactBack(v: View, data: bytes, o: nat, s: Section)
    requires Sees(v, data) && s.Exact? && Fits(s) && At(data, o, Bytes(s))
    ensures ReadExact(v, o, s.name, |s.xs|) == Ok((s, o + |Bytes(s)|))
  {
    AtSplit(data, o, F32s(s.xs), LE(s.scale, 4));
    SeeF32s(v, data, o, s.xs);
    SeeNum(v, data, o + 4 * |s.xs|, s.scale, 4);
  }

  lemma {:induction false} MaskReads(v: View, data: bytes, o: nat, name: Name, ts: seq<trit>, n: nat)
    requires Sees(v, data) && n == |ts| && n < HALF && At(data, o, LE(n, 2)) && At(data, o + 2, Pack(ts))
    ensures ReadMask(v, o, name) == Ok((Mask(name, ts), o + 2 + PackedLen(n)))
  {
    SeeNum(v, data, o, n, 2);
    SeeTrits(v, data, o + 2, ts);
  }

  lemma {:induction false} MaskBack(v: View, data: bytes, o: nat, s: Section)
    requires Sees(v, data) && s.Mask? && Fits(s) && At(data, o, Bytes(s))
    ensures ReadMask(v, o, s.name) == Ok((s, o + |Bytes(s)|))
  {
    var n := |s.trits|;
    AtSplit(data, o, LE(n, 2), Pack(s.trits));
    MaskReads(v, data, o, s.name, s.trits, n);
  }

  lemma {:induction false} FactorSplit(data: bytes, o: nat, p: bytes, q: bytes, r: bytes, t: bytes, a: bytes, b: bytes)
    requires At(data, o, p + q + r + t + a + b) && |p| == |q| == |r| == |t| == 2
    ensures At(data, o, p) && At(data, o + 2, q) && At(data, o + 4, r) && At(data, o + 6, t)
    ensures At(data, o + 8, a) && At(data, o + 8 + |a|, b)
  {
    AtSplit(data, o, p + q + r + t + a, b);
    AtSplit(data, o, p + q + r + t, a);
    AtSplit(data, o, p + q + r, t);
    AtSplit(data, o, p + q, r);
    AtSplit(data, o, p, q);
  }

  lemma {:induction false} SidesBack(v: View, data: bytes, o: nat, p: nat, q: nat, r: nat, t: nat)
    requires SeesNums(v, data) && p < HALF && q < HALF && r < HALF && t < HALF
    requires At(data, o, LE(p, 2)) && At(data, o + 2, LE(q, 2)) && At(data, o + 4, LE(r, 2)) && At(data, o + 6, LE(t, 2))
    ensures ReadSides(v, o) == Ok((p, q, r, t))
  {
    SeeNum(v, data, o, p, 2);
    SeeNum(v, data, o + 2, q, 2);
    SeeNum(v, data, o + 4, r, 2);
    SeeNum(v, data, o + 6, t, 2);
  }

  lemma {:induction false} FactorBack(v: View, data: bytes, o: nat, f: Factors)
    requires Sees(v, data) && FactorsFit(f) && At(data, o, FactorBytes(f))
    ensures ReadFactors(v, o) == Ok((f, o + |FactorBytes(f)|))
  {
    FactorSplit(data, o, LE(f.aRows, 2), LE(f.aCols, 2), LE(f.bRows, 2), LE(f.bCols, 2), F32s(f.a), F32s(f.b));
    SidesBack(v, data, o, f.aRows, f.aCols, f.bRows, f.bCols);
    SeeF32s(v, data, o + 8, f.a);
    SeeF32s(v, data, o + 8 + 4 * |f.a|, f.b);
  }

  lemma {:induction false} FactorAnywhere(v: View, data: bytes, f: Factors)
    requires Sees(v, data) && FactorsFit(f)
    ensures forall o: nat :: At(data, o, FactorBytes(f)) ==> ReadFactors(v, o) == Ok((f, o + |FactorBytes(f)|))
  {
    forall o: nat | At(data, o, FactorBytes(f)) {
      FactorBack(v, data, o, f);
    }
  }

  lemma {:induction false} FactorReaderReads(v: View, data: bytes, rec: bytes, f: Factors)
    requires forall o: nat :: At(data, o, rec) ==> ReadFactors(v, o) == Ok((f, o + |rec|))
    ensures ReadsBack(data, FactorReader(v), rec, f)
  {
  }

  lemma {:induction false} FactorReadsBack(v: View, data: bytes, f: Factors)
    requires Sees(v, data) && FactorsFit(f)
    ensures ReadsBack(data, FactorReader(v), FactorBytes(f), f)
  {
    FactorAnywhere(v, data, f);
    FactorReaderReads(v, data, FactorBytes(f), f);
  }

  ghost predicate AllReadBack(data: bytes, read: Reader<Factors>, recs: seq<bytes>, pairs: seq<Factors>) {
    |recs| == |pairs| && forall i :: 0 <= i < |recs| ==> ReadsBack(data, read, recs[i], pairs[i])
  }

  lemma {:induction false} AllFactorsReadBack(v: View, data: bytes, pairs: seq<Factors>)
    requires Sees(v, data) && forall i :: 0 <= i < |pairs| ==> FactorsFit(pairs[i])
    ensures AllReadBack(data, FactorReader(v), AllFactorBytes(pairs), pairs)
  {
    forall i | 0 <= i < |pairs| ensures ReadsBack(data, FactorReader(v), AllFactorBytes(pairs)[i], pairs[i]) {
      FactorReadsBack(v, data, pairs[i]);
    }
  }

  lemma {:induction false} LoraReads(data: bytes, read: Reader<Factors>, o: nat, name: Name, recs: seq<bytes>,
                                     pairs: seq<Factors>)
    requires At(data, o, Join(recs, |recs|)) && AllReadBack(data, read, recs, pairs)
    ensures ReadLora(read, o, name, |pairs|) == Ok((Lora(name, pairs), o + |Join(recs, |recs|)|))
  {
    ReadManyBack(data, read, o, recs, pairs, |recs|);
    assert pairs[..|recs|] == pairs;
  }

  lemma {:induction false} LoraAt(v: View, data: bytes, o: nat, name: Name, recs: seq<bytes>, pairs: seq<Factors>)
    requires Sees(v, data) && recs == AllFactorBytes(pairs) && At(data, o, Join(recs, |recs|))
    requires forall i :: 0 <= i < |pairs| ==> FactorsFit(pairs[i])
    ensures ReadLora(FactorReader(v), o, name, |pairs|) == Ok((Lora(name, pairs), o + |Join(recs, |recs|)|))
  {
    AllFactorsReadBack(v, data, pairs);
    LoraReads(data, FactorReader(v), o, name, recs, pairs);
  }

  lemma {:induction false} LoraBack(v: View, data: bytes, o: nat, s: Section)
    requires Sees(v, data) && s.Lora? && Fits(s) && At(data, o, Bytes(s))
    ensures ReadLora(FactorReader(v), o, s.name, |s.pairs|) == Ok((s, o + |Bytes(s)|))
  {
    LoraAt(v, data, o, s.name, AllFactorBytes(s.pairs), s.pairs);
  }

  /** A record of the expected shape is read back, and the cursor stops behind it. */
  lemma {:induction false} ReadInvertsBytes(v: View, data: bytes, o: nat, s: Section, sh: Shape)
    requires Sees(v, data) && Fits(s) && Matches(s, sh) && At(data, o, Bytes(s))
    ensures Read(v, o, sh) == Ok((s, o + |Bytes(s)|))
  {
    match sh {
      case TernaryOf(name, n, scales) => TernaryBack(v, data, o, s);
      case FloatsOf(name, n) => SeeF32s(v, data, o, s.xs);
      case ShortsOf(name, n) =>
      case Q6kOf(name, n) => Q6kBack(v, data, o, s, n);
      case ExactOf(name, n) => ExactBack(v, data, o, s);
      case MaskOf(name) => MaskBack(v, data, o, s);
      case TiedOf(name) =>
      case LoraOf(name, n) => LoraBack(v, data, o, s);
    }
  }

  // ----- lists of records ----------------------------------------------------------------------------------

  type ShapeReader = (nat, Shape) -> Result<(Section, nat)>

  function Reading(v: View): ShapeReader {
    (o: nat, sh: Shape) => Read(v, o, sh)
  }

  /** The first `k` records, one behind the other. */
  function ReadShapes(read: ShapeReader, o: nat, shapes: seq<Shape>, k: nat): Result<(seq<Section>, nat)>
    requires k <= |shapes|
  {
    if k == 0 then Ok(([], o))
    else
      match ReadShapes(read, o, shapes, k - 1)
      case Err(e) => Err(e)
      case Ok(ss) => ReadOneMore(ss, read(ss.1, shapes[k - 1]))
  }

  ghost predicate ReadsAs(data: bytes, read: ShapeReader, rec: bytes, s: Section, sh: Shape) {
    forall o: nat :: At(data, o, rec) ==> read(o, sh) == Ok((s, o + |rec|))
  }

  lemma {:induction false} ReadShapesBack(data: bytes, read: ShapeReader, o: nat, recs: seq<bytes>, ss: seq<Section>,
                                          shapes: seq<Shape>, k: nat)
    requires k <= |recs| == |ss| == |shapes| && At(data, o, Join(recs, k))
    requires forall i :: 0 <= i < |recs| ==> ReadsAs(data, read, recs[i], ss[i], shapes[i])
    ensures ReadShapes(read, o, shapes, k) == Ok((ss[..k], o + |Join(recs, k)|))
  {
    if k > 0 {
      AtSplit(data, o, Join(recs, k - 1), recs[k - 1]);
      ReadShapesBack(data, read, o, recs, ss, shapes, k - 1);
      assert ReadsAs(data, read, recs[k - 1], ss[k - 1], shapes[k - 1]);
      assert ss[..k] == ss[..k - 1] + [ss[k - 1]];
    }
  }

  predicate AllFit(ss: seq<Section>) {
    forall i :: 0 <= i < |ss| ==> Fits(ss[i])
  }

  predicate AllMatch(ss: seq<Section>, shapes: seq<Shape>) {
    |ss| == |shapes| && forall i :: 0 <= i < |ss| ==> Matches(ss[i], shapes[i])
  }

  function AllBytes(ss: seq<Section>): (bs: seq<bytes>)
    ensures |bs| == |ss|
  {
    seq(|ss|, i requires 0 <= i < |ss| => Bytes(ss[i]))
  }

  function BodyBytes(ss: seq<Section>): bytes {
    Join(AllBytes(ss), |AllBytes(ss)|)
  }

  lemma {:induction false} ReadsAnywhere(v: View, data: bytes, s: Section, sh: Shape)
    requires Sees(v, data) && Fits(s) && Matches(s, sh)
    ensures forall o: nat :: At(data, o, Bytes(s)) ==> Read(v, o, sh) == Ok((s, o + |Bytes(s)|))
  {
    forall o: nat | At(data, o, Bytes(s)) {
      ReadInvertsBytes(v, data, o, s, sh);
    }
  }

  lemma {:induction false} ReadingReads(v: View, data: bytes, rec: bytes, s: Section, sh: Shape)
    requires forall o: nat :: At(data, o, rec) ==> Read(v, o, sh) == Ok((s, o + |rec|))
    ensures ReadsAs(data, Reading(v), rec, s, sh)
  {
  }

  lemma {:induction false} ReadsAsWritten(v: View, data: bytes, s: Section, sh: Shape)
    requires Sees(v, data) && Fits(s) && Matches(s, sh)
    ensures ReadsAs(data, Reading(v), Bytes(s), s, sh)
  {
    ReadsAnywhere(v, data, s, sh);
    ReadingReads(v, data, Bytes(s), s, sh);
  }

  ghost predicate AllReadAs(data: bytes, read: ShapeReader, recs: seq<bytes>, ss: seq<Section>, shapes: seq<Shape>) {
    |recs| == |ss| == |shapes| && forall i :: 0 <= i < |recs| ==> ReadsAs(data, read, recs[i], ss[i], shapes[i])
  }

  lemma {:induction false} AllReadAsWritten(v: View, data: bytes, ss: seq<Section>, shapes: seq<Shape>)
    requires Sees(v, data) && AllFit(ss) && AllMatch(ss, shapes)
    ensures AllReadAs(data, Reading(v), AllBytes(ss), ss, shapes)
  {
    forall i | 0 <= i < |ss| ensures ReadsAs(data, Reading(v), AllBytes(ss)[i], ss[i], shapes[i]) {
      ReadsAsWritten(v, data, ss[i], shapes[i]);
    }
  }

  lemma {:induction false} ListBack(data: bytes, read: ShapeReader, o: nat, recs: seq<bytes>, ss: seq<Section>,
                                    shapes: seq<Shape>)
    requires AllReadAs(data, read, recs, ss, shapes) && At(data, o, Join(recs, |recs|))
    ensures ReadShapes(read, o, shapes, |shapes|) == Ok((ss, o + |Join(recs, |recs|)|))
  {
    ReadShapesBack(data, read, o, recs, ss, shapes, |recs|);
    assert ss[..|recs|] == ss;
  }

  /** Records laid end to end are read back by any reader that expects their shapes. */
  lemma {:induction false} SectionsBack(v: View, data: bytes, o: nat, ss: seq<Section>, shapes: seq<Shape>, end: nat)
    requires Sees(v, data) && AllFit(ss) && AllMatch(ss, shapes) && At(data, o, BodyBytes(ss))
    requires end == o + |BodyBytes(ss)|
    ensures ReadShapes(Reading(v), o, shapes, |shapes|) == Ok((ss, end))
  {
    AllReadAsWritten(v, data, ss, shapes);
    ListBack(data, Reading(v), o, AllBytes(ss), ss, shapes);
  }

  /** Records that fit and have the expected shapes. */
  predicate Good(ss: seq<Section>, shapes: seq<Shape>) {
    AllFit(ss) && AllMatch(ss, shapes)
  }

  lemma {:induction false} GoodAppend(a: seq<Section>, s: seq<Shape>, b: seq<Section>, t: seq<Shape>)
    requires Good(a, s) && Good(b, t)
    ensures Good(a + b, s + t)
  {
  }

  lemma {:induction false} HeadAndBody(head: bytes, body: bytes)
    ensures At(head + body, 0, head) && At(head + body, |head|, body)
  {
    AtWhole(head + body);
    AtSplit(head + body, 0, head, body);
  }

  lemma {:induction false} JoinOfPrefix(a: seq<bytes>, b: seq<bytes>, k: nat)
    requires k <= |a|
    ensures Join(a + b, k) == Join(a, k)
  {
    if k > 0 {
      JoinOfPrefix(a, b, k - 1);
    }
  }

  lemma {:induction false} AllBytesOfAppend(a: seq<Section>, b: seq<Section>)
    ensures AllBytes(a + b) == AllBytes(a) + AllBytes(b)
  {
    forall i | 0 <= i < |a| + |b| ensures AllBytes(a + b)[i] == (AllBytes(a) + AllBytes(b))[i] {
      assert AllBytes(a + b)[i] == Bytes((a + b)[i]);
    }
  }

  lemma {:induction false} BodyOneMore(ss: seq<Section>, s: Section)
    ensures BodyBytes(ss + [s]) == BodyBytes(ss) + Bytes(s)
  {
    AllBytesOfAppend(ss, [s]);
    assert AllBytes([s]) == [Bytes(s)];
    JoinOfPrefix(AllBytes(ss), [Bytes(s)], |ss|);
  }

  // ----- a cursor over records -----------------------------------------------------------------------------

  function When(b: bool, shapes: seq<Shape>): seq<Shape> {
    if b then shapes else []
  }

  lemma {:induction false} ReadShapesPrefix(read: ShapeReader, o: nat, shapes: seq<Shape>, sh: Shape, k: nat)
    requires k <= |shapes|
    ensures ReadShapes(read, o, shapes + [sh], k) == ReadShapes(read, o, shapes, k)
  {
    if k > 0 {
      ReadShapesPrefix(read, o, shapes, sh, k - 1);
    }
  }

  /** The cursor of a reader; once a record is cut short nothing more is read. */
  class Cursor {
    const read: ShapeReader
    const start: nat
    var off: nat
    var got: seq<Section>
    var error: Option<string>
    ghost var asked: seq<Shape>

    function State(): Result<(seq<Section>, nat)>
      reads this
    {
      match error case Some(e) => Err(e) case None => Ok((got, off))
    }

    ghost predicate Valid()
      reads this
    {
      forall k: nat :: Peek(k) ==> State() == ReadShapes(read, start, asked, |asked|)
    }

    constructor (read: ShapeReader, start: nat)
      ensures Valid() && asked == [] && this.read == read && this.start == start
    {
      this.read, this.start := read, start;
      off, got, error, asked := start, [], None, [];
    }

    method Take(sh: Shape)
      requires Valid()
      modifies this
      ensures Valid() && asked == old(asked) + [sh]
    {
      assert Peek(0);
      ReadShapesPrefix(read, start, asked, sh, |asked|);
      if error.None? {
        var r := read(off, sh);
        match r {
          case Err(e) => error := Some(e);
          case Ok(x) => got, off := got + [x.0], x.1;
        }
      }
      asked := asked + [sh];
    }

    method TakeAll(shapes: seq<Shape>)
      requires Valid()
      modifies this
      ensures Valid() && asked == old(asked) + shapes
    {
      ghost var before := asked;
      var i := 0;
      while i < |shapes|
        invariant 0 <= i <= |shapes|
        invariant Valid() && asked == before + shapes[..i]
      {
        assert shapes[..i + 1] == shapes[..i] + [shapes[i]];
        Assoc(before, shapes[..i], [shapes[i]]);
        Take(shapes[i]);
        i := i + 1;
      }
      assert shapes[..i] == shapes;
    }

    method TakeWhen(b: bool, shapes: seq<Shape>)
      requires Valid()
      modifies this
      ensures Valid() && asked == old(asked) + When(b, shapes)
    {
      if b {
        TakeAll(shapes);
      }
    }
  }
}
