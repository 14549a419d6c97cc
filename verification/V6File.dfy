/** The .bitnet v6 and v7 model files: the writer (tools/bitnet_writer.py header and body writers in the order of
    tools/convert_falcon3_to_v6.py `convert`), the loader `V6.__init__` (tools/chat_v6.py) and the size auditor
    `parse_v6_size` (tools/audit_model_blobs.py).
 */
module V6File {
  import opened Basics
  import opened Wire
  import opened Trits
  import opened Sections
  import opened Header

  // ----- dimensions ------------------------------------------------------------------------------------------

  function KDim(d: Dims): nat
    requires d.heads > 0
  {
    Area(d.kvHeads, d.qDim / d.heads)
  }

  function Ffn(d: Dims): nat
    requires d.hidden > 0
  {
    Area(d.intermediate, d.qDim) / d.hidden
  }

  // ----- what the loader reads behind the header -----------------------------------------------------------

  function OneScale(name: Name, rows: nat, cols: nat): Shape {
    TernaryOf(name, Area(rows, cols), 1)
  }

  function NormShapes(d: Dims, inner: bool, ffn: bool, l: nat): seq<Shape> {
    [FloatsOf(Layer(l, "rms_attn"), d.hidden), FloatsOf(Layer(l, "rms_ffn"), d.hidden)] +
    When(inner, [FloatsOf(Layer(l, "rms_inner"), d.hidden)]) +
    When(ffn, [FloatsOf(Layer(l, "rms_ffn_norm"), d.intermediate)])
  }

  function ProjShapes(d: Dims, kDim: nat, ffn: nat, l: nat): seq<Shape> {
    [OneScale(Layer(l, "q"), d.hidden, d.qDim), OneScale(Layer(l, "k"), d.hidden, kDim),
     OneScale(Layer(l, "v"), d.hidden, kDim), OneScale(Layer(l, "o"), d.qDim, d.hidden),
     OneScale(Layer(l, "gate"), d.hidden, ffn), OneScale(Layer(l, "up"), d.hidden, ffn),
     OneScale(Layer(l, "down"), d.intermediate, d.qDim)]
  }

  function OneLayer(d: Dims, kDim: nat, ffn: nat, feat: nat, l: nat): seq<Shape> {
    NormShapes(d, Bit(feat, 0), Bit(feat, 1), l) + ProjShapes(d, kDim, ffn, l)
  }

  function LayerShapes(d: Dims, kDim: nat, ffn: nat, feat: nat, n: nat): seq<Shape> {
    if n == 0 then [] else LayerShapes(d, kDim, ffn, feat, n - 1) + OneLayer(d, kDim, ffn, feat, n - 1)
  }

  function UnembedShape(d: Dims, q6k: bool): Shape {
    if d.tied then TiedOf(Plain("unembed"))
    else if q6k then Q6kOf(Plain("unembed"), Area(d.hidden, d.vocab))
    else OneScale(Plain("unembed"), d.hidden, d.vocab)
  }

  function EndShapes(d: Dims, q6k: bool): seq<Shape> {
    [FloatsOf(Plain("rms_final"), d.hidden), UnembedShape(d, q6k), FloatsOf(Plain("theta"), 1)]
  }

  function Plan(d: Dims, kDim: nat, ffn: nat, feat: nat): seq<Shape> {
    [Q6kOf(Plain("embed"), Area(d.hidden, d.vocab))] + LayerShapes(d, kDim, ffn, feat, d.layers) +
    EndShapes(d, Bit(feat, 3))
  }

  // ----- sizes -----------------------------------------------------------------------------------------------

  /** Shapes whose length is fixed by the header. */
  predicate Static(sh: Shape) {
    !sh.MaskOf? && !sh.LoraOf?
  }

  function ShapeLen(sh: Shape): nat {
    match sh
    case TernaryOf(_, n, scales) => PackedLen(n) + 4 * scales
    case FloatsOf(_, n) => 4 * n
    case ShortsOf(_, n) => 2 * n
    case Q6kOf(_, n) => Q6kSize(n) + 4
    case ExactOf(_, n) => 4 * n + 4
    case TiedOf(_) => 0
    case MaskOf(_) => 0
    case LoraOf(_, _) => 0
  }

  function SumLen(shapes: seq<Shape>, k: nat): nat
    requires k <= |shapes|
  {
    if k == 0 then 0 else SumLen(shapes, k - 1) + ShapeLen(shapes[k - 1])
  }

  predicate AllStatic(shapes: seq<Shape>) {
    forall i :: 0 <= i < |shapes| ==> Static(shapes[i])
  }

  lemma {:induction false} ReadMoves(v: View, o: nat, sh: Shape)
    requires Static(sh) && Read(v, o, sh).Ok?
    ensures Read(v, o, sh).value.1 == o + ShapeLen(sh)
  {
  }

  /** However a file reads, the cursor moves by the lengths of the shapes asked for. */
  lemma {:induction false} ReadShapesMove(v: View, o: nat, shapes: seq<Shape>, k: nat)
    requires k <= |shapes| && AllStatic(shapes) && ReadShapes(Reading(v), o, shapes, k).Ok?
    ensures ReadShapes(Reading(v), o, shapes, k).value.1 == o + SumLen(shapes, k)
  {
    if k > 0 {
      ReadShapesMove(v, o, shapes, k - 1);
      ReadMoves(v, ReadShapes(Reading(v), o, shapes, k - 1).value.1, shapes[k - 1]);
    }
  }

  lemma {:induction false} SumPrefix(a: seq<Shape>, b: seq<Shape>, k: nat)
    requires k <= |a|
    ensures SumLen(a + b, k) == SumLen(a, k)
  {
    if k > 0 {
      SumPrefix(a, b, k - 1);
    }
  }

  lemma {:induction false} SumAppend(a: seq<Shape>, b: seq<Shape>, k: nat)
    requires k <= |b|
    ensures SumLen(a + b, |a| + k) == SumLen(a, |a|) + SumLen(b, k)
  {
    if k == 0 {
      SumPrefix(a, b, |a|);
    } else {
      SumAppend(a, b, k - 1);
      assert (a + b)[|a| + k - 1] == b[k - 1];
    }
  }

  function Total(shapes: seq<Shape>): nat {
    SumLen(shapes, |shapes|)
  }

  lemma {:induction false} TotalAppend(a: seq<Shape>, b: seq<Shape>)
    ensures Total(a + b) == Total(a) + Total(b)
  {
    SumAppend(a, b, |b|);
  }

  lemma {:induction false} TotalOne(sh: Shape)
    ensures Total([sh]) == ShapeLen(sh)
  {
    assert SumLen([sh], 0) == 0;
  }

  // ----- the auditor -----------------------------------------------------------------------------------------

  function TernLen(rows: nat, cols: nat): nat {
    PackedLen(Area(rows, cols))
  }

  function LayerNorms(d: Dims, inner: bool, ffn: bool): nat {
    d.hidden * 4 * 2 + (if inner then d.hidden * 4 else 0) + (if ffn then d.intermediate * 4 else 0)
  }

  function LayerTern(d: Dims, kDim: nat, ffn: nat): nat {
    TernLen(d.hidden, d.qDim) + TernLen(d.hidden, kDim) * 2 + TernLen(d.qDim, d.hidden) + TernLen(d.hidden, ffn) * 2 +
    TernLen(d.intermediate, d.qDim) + 7 * 4
  }

  function EmbedLen(d: Dims, embedType: nat): nat {
    var n := Area(d.hidden, d.vocab);
    if embedType == 0 then PackedLen(n) + 4 else if embedType == 1 then Q6kSize(n) + 4 else n * 2 + 4
  }

  function UnembedLen(d: Dims, q6k: bool): nat {
    var n := Area(d.hidden, d.vocab);
    if d.tied then 0 else if q6k then Q6kSize(n) + 4 else PackedLen(n) + 4
  }

  /** The auditor's sum behind a header that ends at `hdrEnd`. */
  function AuditSum(d: Dims, kDim: nat, ffn: nat, embedType: nat, feat: nat, hdrEnd: nat): nat {
    hdrEnd + EmbedLen(d, embedType) + Area(d.layers, LayerLen(d, kDim, ffn, feat)) + d.hidden * 4 +
    UnembedLen(d, Bit(feat, 3)) + Area(d.medusa, PackedLen(Area(d.hidden, d.vocab)) + 4) +
    (if Bit(feat, 2) then 4 else 0)
  }

  lemma {:induction false} NormTotal(d: Dims, inner: bool, ffn: bool, l: nat)
    ensures Total(NormShapes(d, inner, ffn, l)) == LayerNorms(d, inner, ffn)
  {
    var a, b := FloatsOf(Layer(l, "rms_attn"), d.hidden), FloatsOf(Layer(l, "rms_ffn"), d.hidden);
    var c, e := FloatsOf(Layer(l, "rms_inner"), d.hidden), FloatsOf(Layer(l, "rms_ffn_norm"), d.intermediate);
    TotalAppend([a], [b]);
    assert [a, b] == [a] + [b];
    TotalOne(a);
    TotalOne(b);
    TotalOne(c);
    TotalOne(e);
    TotalAppend([a, b], When(inner, [c]));
    TotalAppend([a, b] + When(inner, [c]), When(ffn, [e]));
  }

  lemma {:induction false} SevenTotal(a: Shape, b: Shape, c: Shape, d: Shape, e: Shape, f: Shape, g: Shape)
    ensures Total([a, b, c, d, e, f, g]) ==
            ShapeLen(a) + ShapeLen(b) + ShapeLen(c) + ShapeLen(d) + ShapeLen(e) + ShapeLen(f) + ShapeLen(g)
  {
    var s := [a, b, c, d, e, f, g];
    assert SumLen(s, 0) == 0;
    assert SumLen(s, 1) == ShapeLen(a);
    assert SumLen(s, 2) == SumLen(s, 1) + ShapeLen(b);
    assert SumLen(s, 3) == SumLen(s, 2) + ShapeLen(c);
    assert SumLen(s, 4) == SumLen(s, 3) + ShapeLen(d);
    assert SumLen(s, 5) == SumLen(s, 4) + ShapeLen(e);
    assert SumLen(s, 6) == SumLen(s, 5) + ShapeLen(f);
    assert SumLen(s, 7) == SumLen(s, 6) + ShapeLen(g);
  }

  lemma {:induction false} ProjTotal(d: Dims, kDim: nat, ffn: nat, l: nat)
    ensures Total(ProjShapes(d, kDim, ffn, l)) == LayerTern(d, kDim, ffn)
  {
    SevenTotal(OneScale(Layer(l, "q"), d.hidden, d.qDim), OneScale(Layer(l, "k"), d.hidden, kDim),
               OneScale(Layer(l, "v"), d.hidden, kDim), OneScale(Layer(l, "o"), d.qDim, d.hidden),
               OneScale(Layer(l, "gate"), d.hidden, ffn), OneScale(Layer(l, "up"), d.hidden, ffn),
               OneScale(Layer(l, "down"), d.intermediate, d.qDim));
  }

  lemma {:induction false} ThreeTotal(a: seq<Shape>, b: seq<Shape>, c: seq<Shape>)
    ensures Total(a + b + c) == Total(a) + Total(b) + Total(c)
  {
    TotalAppend(a, b);
    TotalAppend(a + b, c);
  }

  function LayerLen(d: Dims, kDim: nat, ffn: nat, feat: nat): nat {
    LayerNorms(d, Bit(feat, 0), Bit(feat, 1)) + LayerTern(d, kDim, ffn)
  }

  lemma {:induction false} OneLayerTotal(d: Dims, kDim: nat, ffn: nat, feat: nat, l: nat)
    ensures Total(OneLayer(d, kDim, ffn, feat, l)) == LayerLen(d, kDim, ffn, feat)
  {
    NormTotal(d, Bit(feat, 0), Bit(feat, 1), l);
    ProjTotal(d, kDim, ffn, l);
    TotalAppend(NormShapes(d, Bit(feat, 0), Bit(feat, 1), l), ProjShapes(d, kDim, ffn, l));
  }

  lemma {:induction false} LayersTotal(d: Dims, kDim: nat, ffn: nat, feat: nat, n: nat, each: nat)
    requires forall l: nat :: Total(OneLayer(d, kDim, ffn, feat, l)) == each
    ensures Total(LayerShapes(d, kDim, ffn, feat, n)) == Area(n, each)
  {
    if n > 0 {
      LayersTotal(d, kDim, ffn, feat, n - 1, each);
      TotalAppend(LayerShapes(d, kDim, ffn, feat, n - 1), OneLayer(d, kDim, ffn, feat, n - 1));
    }
  }

  lemma {:induction false} AllLayersTotal(d: Dims, kDim: nat, ffn: nat, feat: nat)
    ensures Total(LayerShapes(d, kDim, ffn, feat, d.layers)) == Area(d.layers, LayerLen(d, kDim, ffn, feat))
  {
    forall l: nat ensures Total(OneLayer(d, kDim, ffn, feat, l)) == LayerLen(d, kDim, ffn, feat) {
      OneLayerTotal(d, kDim, ffn, feat, l);
    }
    LayersTotal(d, kDim, ffn, feat, d.layers, LayerLen(d, kDim, ffn, feat));
  }

  lemma {:induction false} EndTotal(d: Dims, q6k: bool)
    ensures Total(EndShapes(d, q6k)) == d.hidden * 4 + UnembedLen(d, q6k) + 4
  {
    var a, b, c := FloatsOf(Plain("rms_final"), d.hidden), UnembedShape(d, q6k), FloatsOf(Plain("theta"), 1);
    TotalOne(a);
    TotalOne(b);
    TotalOne(c);
    TotalAppend([a], [b]);
    TotalAppend([a] + [b], [c]);
    assert [a, b, c] == [a] + [b] + [c];
  }

  /** For a Q6_K embedding the auditor's sum is the length of what the loader asks for, more one packed matrix for each
      Medusa head and less the four bytes of theta when theta is not flagged: the loader reads it all the same. */
  lemma {:induction false} AuditIsPlan(d: Dims, kDim: nat, ffn: nat, feat: nat, hdrEnd: nat)
    ensures AuditSum(d, kDim, ffn, 1, feat, hdrEnd) + (if Bit(feat, 2) then 0 else 4)
            == hdrEnd + Total(Plan(d, kDim, ffn, feat)) + Area(d.medusa, PackedLen(Area(d.hidden, d.vocab)) + 4)
  {
    var e := Q6kOf(Plain("embed"), Area(d.hidden, d.vocab));
    AllLayersTotal(d, kDim, ffn, feat);
    EndTotal(d, Bit(feat, 3));
    TotalOne(e);
    ThreeTotal([e], LayerShapes(d, kDim, ffn, feat, d.layers), EndShapes(d, Bit(feat, 3)));
  }

  /** What the loader accepts has no Medusa heads. */
  lemma {:induction false} AuditWithoutHeads(d: Dims, kDim: nat, ffn: nat, feat: nat, hdrEnd: nat)
    requires d.medusa == 0
    ensures AuditSum(d, kDim, ffn, 1, feat, hdrEnd) + (if Bit(feat, 2) then 0 else 4)
            == hdrEnd + Total(Plan(d, kDim, ffn, feat))
  {
    AuditIsPlan(d, kDim, ffn, feat, hdrEnd);
  }

  // ----- loading the header ----------------------------------------------------------------------------------

  /** Where a v7 model came from; `rev` and `git` stand in 40 bytes each. */
  datatype Prov = Prov(repo: bytes, rev: bytes, conv: bytes, git: bytes, scaleConv: nat, unpackConv: nat)

  /** The loaded header; the body starts at `end`. */
  datatype Head = Head(version: nat, numParams: nat, dims: Dims, tokType: nat, tok: bytes, act: nat, embedType: nat,
                       feat: nat, prov: Option<Prov>, end: nat)

  /** Trailing NULs removed. */
  function Strip(b: bytes): bytes {
    if b != [] && b[|b| - 1] == 0 then Strip(b[..|b| - 1]) else b
  }

  function Pair<A, B>(a: Result<A>, b: Result<B>): Result<(A, B)> {
    match a
    case Err(e) => Err(e)
    case Ok(x) => match b case Err(e) => Err(e) case Ok(y) => Ok((x, y))
  }

  /** A length-prefixed string, then 40 bytes. */
  function ReadName(v: View, o: nat): Result<(bytes, bytes)> {
    match v.num(o, 2)
    case Err(e) => Err(e)
    case Ok(n) => Pair(v.raw(o + 2, n), v.raw(o + 2 + n, 40))
  }

  function ReadProv(v: View, o: nat): Result<(Prov, nat)> {
    match ReadName(v, o)
    case Err(e) => Err(e)
    case Ok(r) =>
      var o1 := o + 42 + |r.0|;
      match ReadName(v, o1)
      case Err(e) => Err(e)
      case Ok(c) =>
        var o2 := o1 + 42 + |c.0|;
        match Pair(Pair(v.num(o2, 1), v.num(o2 + 1, 1)), v.num(o2 + 2, 2))
        case Err(e) => Err(e)
        case Ok(q) => Ok((Prov(r.0, Strip(r.1), c.0, Strip(c.1), q.0.0, q.0.1), o2 + 4))
  }

  function ReadKinds(v: View, o: nat): Result<(nat, nat, nat)> {
    match Pair(Pair(v.num(o, 1), v.num(o + 1, 1)), v.num(o + 2, 1))
    case Err(e) => Err(e)
    case Ok(q) => Ok((q.0.0, q.0.1, q.1))
  }

  function ReadTok(v: View): Result<(nat, bytes)> {
    match Pair(v.num(44, 1), v.num(45, 4))
    case Err(e) => Err(e)
    case Ok(t) =>
      match v.raw(49, t.1)
      case Err(e) => Err(e)
      case Ok(b) => Ok((t.0, b))
  }

  function ReadOptProv(v: View, version: nat, o: nat): Result<(Option<Prov>, nat)> {
    if version != 7 then Ok((None, o))
    else match ReadProv(v, o) case Err(e) => Err(e) case Ok(p) => Ok((Some(p.0), p.1))
  }

  function FirstError(v: View): Option<string> {
    if v.num(0, 4) != Ok(MAGIC) then Some("magic")
    else if v.num(4, 2) != Ok(6) && v.num(4, 2) != Ok(7) then Some("version")
    else if v.num(14, 1) != Ok(0) then Some("model_type")
    else None
  }

  /** Only bits 0 to 3 of the feature byte are known. */
  predicate KnownFeat(feat: nat) {
    feat < 16
  }

  function LastError(h: Head): Option<string> {
    if h.act > 1 then Some("act")
    else if h.embedType != 1 then Some("embed")
    else if !KnownFeat(h.feat) then Some("feat")
    else if h.dims.medusa != 0 then Some("medusa")
    else if h.dims.heads == 0 || h.dims.hidden == 0 then Some("ZeroDivisionError")
    else None
  }

  function LoadHead(v: View): Result<Head> {
    var e0 := FirstError(v);
    if e0.Some? then Err(e0.value)
    else
      match ReadTok(v)
      case Err(e) => Err(e)
      case Ok(t) =>
        var o := 49 + |t.1|;
        match ReadKinds(v, o)
        case Err(e) => Err(e)
        case Ok(q) =>
          match ReadOptProv(v, NumOr(v, 4, 2), o + 3)
          case Err(e) => Err(e)
          case Ok(p) =>
            Ok(Head(NumOr(v, 4, 2), NumOr(v, 6, 8), ReadDims(v), t.0, t.1, q.0, q.1, q.2, p.0, p.1))
  }

  /** The loaded header, the records behind it, and where the cursor stopped. */
  datatype Loaded = Loaded(head: Head, sections: seq<Section>, end: nat)

  function PlanOf(h: Head): seq<Shape>
    requires h.dims.heads > 0 && h.dims.hidden > 0
  {
    Plan(h.dims, KDim(h.dims), Ffn(h.dims), h.feat)
  }

  function WithBody(h: Head, body: Result<(seq<Section>, nat)>): Result<Loaded> {
    match body case Err(e) => Err(e) case Ok(ss) => Ok(Loaded(h, ss.0, ss.1))
  }

  function LoadBody(read: ShapeReader, h: Head): Result<Loaded> {
    var e := LastError(h);
    if e.Some? then Err(e.value) else WithBody(h, ReadShapes(read, h.end, PlanOf(h), |PlanOf(h)|))
  }

  function LoadView(v: View, read: ShapeReader): Result<Loaded> {
    match LoadHead(v) case Err(e) => Err(e) case Ok(h) => LoadBody(read, h)
  }

  function Load(data: bytes): Result<Loaded> {
    LoadView(ViewOf(data), Reading(ViewOf(data)))
  }

  // ----- auditing the header ---------------------------------------------------------------------------------

  function TokCap(version: nat): nat {
    if version == 7 then 8 * 1024 * 1024 else 65536
  }

  /** Where the auditor thinks provenance ends. */
  function AuditProv(v: View, size: nat, hdrEnd: nat): Result<nat> {
    if hdrEnd + 2 > size then Err("need_v7")
    else
      var rl := NumOr(v, hdrEnd, 2);
      var p := hdrEnd + 2 + rl + 40;
      if rl > 4096 then Err("rl")
      else if p + 2 > size then Err("need_v7b")
      else
        var cl := NumOr(v, p, 2);
        if cl > 4096 then Err("cl")
        else if p + 2 + cl + 40 + 4 > size then Err("need_v7c")
        else Ok(p + 2 + cl + 40 + 4)
  }

  function AuditEnd(v: View, size: nat, version: nat, hdrEnd: nat): Result<nat> {
    if version == 7 then AuditProv(v, size, hdrEnd) else Ok(hdrEnd)
  }

  function AtLeastOne(n: nat): nat {
    if n == 0 then 1 else n
  }

  function AuditView(v: View, size: nat): Result<nat> {
    var version, d, tokLen := NumOr(v, 4, 2), ReadDims(v), NumOr(v, 45, 4);
    var hdrEnd := 49 + tokLen + 3;
    if size < 52 then Err("trunc")
    else if version != 6 && version != 7 then Err("ver")
    else if NumOr(v, 14, 1) != 0 then Err("mtype")
    else if tokLen > TokCap(version) then Err("tok_len_cap")
    else if hdrEnd > size then Err("need")
    else
      match AuditEnd(v, size, version, hdrEnd)
      case Err(e) => Err(e)
      case Ok(end) =>
        var d1 := d.(heads := AtLeastOne(d.heads), hidden := AtLeastOne(d.hidden));
        Ok(AuditSum(d, Area(d.kvHeads, d.qDim / d1.heads), Area(d.intermediate, d.qDim) / d1.hidden,
                    NumOr(v, hdrEnd - 2, 1), NumOr(v, hdrEnd - 1, 1), end))
  }

  function ParseSize(data: bytes): Result<nat> {
    AuditView(ViewOf(data), |data|)
  }

  // ----- loader and auditor agree on every file ------------------------------------------------------------

  /** A view fails exactly beyond the end of the file. */
  ghost predicate Bounded(v: View, size: nat) {
    && (forall o: nat, k: nat :: v.num(o, k).Ok? <==> o + k <= size)
    && (forall o: nat, n: nat :: v.raw(o, n).Ok? <==> o + n <= size)
    && (forall o: nat, n: nat :: v.raw(o, n).Ok? ==> |v.raw(o, n).value| == n)
  }

  lemma {:induction false} ViewIsBounded(data: bytes)
    ensures Bounded(ViewOf(data), |data|)
  {
  }

  /** The strings of the provenance block are short enough for the auditor. */
  predicate ProvInCaps(p: Prov) {
    |p.repo| <= 4096 && |p.conv| <= 4096
  }

  lemma {:induction false} NameBounds(v: View, size: nat, o: nat)
    requires Bounded(v, size) && ReadName(v, o).Ok?
    ensures v.num(o, 2) == Ok(|ReadName(v, o).value.0|) && o + 42 + |ReadName(v, o).value.0| <= size
  {
  }

  lemma {:induction false} ProvAgrees(v: View, size: nat, o: nat)
    requires Bounded(v, size) && ReadProv(v, o).Ok?
    ensures var p := ReadProv(v, o).value;
            && (AuditProv(v, size, o).Ok? <==> ProvInCaps(p.0))
            && (AuditProv(v, size, o).Ok? ==> AuditProv(v, size, o).value == p.1)
  {
    NameBounds(v, size, o);
    var n := |ReadName(v, o).value.0|;
    NameBounds(v, size, o + 42 + n);
  }

  /** The limits the auditor puts on the strings in the header. */
  predicate InCaps(h: Head) {
    |h.tok| <= TokCap(h.version) && (h.prov.Some? ==> ProvInCaps(h.prov.value))
  }

  lemma {:induction false} HeadFacts(v: View, size: nat, h: Head)
    requires Bounded(v, size) && LoadHead(v) == Ok(h)
    ensures h.version == NumOr(v, 4, 2) && (h.version == 6 || h.version == 7) && NumOr(v, 14, 1) == 0
    ensures h.dims == ReadDims(v) && |h.tok| == NumOr(v, 45, 4) && 52 + |h.tok| <= size
    ensures h.embedType == NumOr(v, 50 + |h.tok|, 1) && h.feat == NumOr(v, 51 + |h.tok|, 1)
    ensures ReadOptProv(v, h.version, 52 + |h.tok|) == Ok((h.prov, h.end))
  {
  }

  lemma {:induction false} EndAgrees(v: View, size: nat, h: Head)
    requires Bounded(v, size) && LoadHead(v) == Ok(h)
    ensures var end := AuditEnd(v, size, h.version, 52 + |h.tok|);
            && (end.Ok? <==> (h.prov.Some? ==> ProvInCaps(h.prov.value)))
            && (end.Ok? ==> end.value == h.end)
  {
    HeadFacts(v, size, h);
    if h.version == 7 {
      ProvAgrees(v, size, 52 + |h.tok|);
    }
  }

  /** What the auditor makes of a header. */
  function AuditOf(h: Head): nat
    requires h.dims.heads > 0 && h.dims.hidden > 0
  {
    AuditSum(h.dims, KDim(h.dims), Ffn(h.dims), 1, h.feat, h.end)
  }

  lemma {:induction false} AuditPlanned(h: Head)
    requires LastError(h).None?
    ensures AuditOf(h) == h.end + Total(PlanOf(h)) <==> Bit(h.feat, 2)
    ensures AuditOf(h) <= h.end + Total(PlanOf(h))
  {
    AuditWithoutHeads(h.dims, KDim(h.dims), Ffn(h.dims), h.feat, h.end);
  }

  /** On a file whose header the loader takes, the auditor answers exactly when the strings are within its caps. */
  lemma {:induction false} HeadAgrees(v: View, size: nat, h: Head)
    requires Bounded(v, size) && LoadHead(v) == Ok(h) && LastError(h).None?
    ensures AuditView(v, size).Ok? <==> InCaps(h)
    ensures AuditView(v, size).Ok? ==>
              AuditView(v, size).value == AuditOf(h)
  {
    HeadFacts(v, size, h);
    EndAgrees(v, size, h);
    AuditViewIs(v, size, h, AuditEnd(v, size, h.version, 52 + |h.tok|));
  }

  /** The auditor's way through a header whose fields are known. */
  lemma {:induction false} AuditViewIs(v: View, size: nat, h: Head, end: Result<nat>)
    requires h.version == NumOr(v, 4, 2) && (h.version == 6 || h.version == 7) && NumOr(v, 14, 1) == 0
    requires h.dims == ReadDims(v) && |h.tok| == NumOr(v, 45, 4) && 52 + |h.tok| <= size
    requires h.embedType == NumOr(v, 50 + |h.tok|, 1) == 1 && h.feat == NumOr(v, 51 + |h.tok|, 1)
    requires h.dims.heads > 0 && h.dims.hidden > 0 && end == AuditEnd(v, size, h.version, 52 + |h.tok|)
    ensures AuditView(v, size).Ok? <==> |h.tok| <= TokCap(h.version) && end.Ok?
    ensures AuditView(v, size).Ok? ==>
              AuditView(v, size).value == AuditSum(h.dims, KDim(h.dims), Ffn(h.dims), 1, h.feat, end.value)
  {
  }

  lemma {:induction false} PlanIsStatic(d: Dims, kDim: nat, ffn: nat, feat: nat)
    ensures AllStatic(Plan(d, kDim, ffn, feat))
  {
    LayersAreStatic(d, kDim, ffn, feat, d.layers);
  }

  lemma {:induction false} LayersAreStatic(d: Dims, kDim: nat, ffn: nat, feat: nat, n: nat)
    ensures AllStatic(LayerShapes(d, kDim, ffn, feat, n))
  {
    if n > 0 {
      LayersAreStatic(d, kDim, ffn, feat, n - 1);
    }
  }

  lemma {:induction false} CursorIsPlan(v: View, h: Head)
    requires LastError(h).None? && LoadBody(Reading(v), h).Ok?
    ensures LoadBody(Reading(v), h).value.end == h.end + Total(PlanOf(h))
  {
    PlanIsStatic(h.dims, KDim(h.dims), Ffn(h.dims), h.feat);
    ReadShapesMove(v, h.end, PlanOf(h), |PlanOf(h)|);
  }

  lemma {:induction false} SameSize(audit: Result<nat>, answers: bool, fits: bool, planned: nat, size: nat)
    requires (audit.Ok? <==> answers) && (audit.Ok? ==> audit.value == planned) && (size == planned <==> fits)
    ensures audit == Ok(size) <==> answers && fits
  {
  }

  lemma {:induction false} AgreeOnBody(v: View, size: nat, h: Head, l: Loaded)
    requires Bounded(v, size) && LoadHead(v) == Ok(h) && LastError(h).None? && LoadBody(Reading(v), h) == Ok(l)
    ensures AuditView(v, size).Ok? <==> InCaps(h)
    ensures AuditView(v, size) == Ok(l.end) <==> InCaps(h) && Bit(h.feat, 2)
  {
    HeadAgrees(v, size, h);
    CursorIsPlan(v, h);
    AuditPlanned(h);
    SameSize(AuditView(v, size), InCaps(h), Bit(h.feat, 2), AuditOf(h), l.end);
  }

  /** On every file the loader accepts: the auditor answers exactly when the header strings are within its caps, and
      its answer is where the loader's cursor stopped if and only if theta is flagged. */
  lemma {:induction false} LoaderAndAuditorAgree(data: bytes)
    requires Load(data).Ok?
    ensures var l := Load(data).value;
            && (ParseSize(data).Ok? <==> InCaps(l.head))
            && (ParseSize(data) == Ok(l.end) <==> InCaps(l.head) && Bit(l.head.feat, 2))
  {
    ViewIsBounded(data);
    AgreeOnBody(ViewOf(data), |data|, Load(data).value.head, Load(data).value);
  }

  // ----- the writer ------------------------------------------------------------------------------------------

  datatype Tern = Tern(trits: seq<trit>, scale: nat)

  /** One layer; the two optional norms are written only when the model has them. */
  datatype Block = Block(rmsAttn: seq<nat>, rmsFfn: seq<nat>, inner: seq<nat>, ffnNorm: seq<nat>,
                         q: Tern, k: Tern, v: Tern, o: Tern, gate: Tern, up: Tern, down: Tern)

  datatype Unembed = TiedU | TernU(t: Tern) | Q6kU(payload: bytes, scale: nat)

  datatype Model = Model(version: nat, numParams: nat, dims: Dims, tokType: nat, tok: bytes, act: nat, prov: Prov,
                         embed: bytes, embedScale: nat, inner: bool, ffnNorm: bool, blocks: seq<Block>,
                         rmsFinal: seq<nat>, unembed: Unembed, theta: nat)

  function Feat(m: Model): nat {
    Bits([m.inner, m.ffnNorm, true, m.unembed.Q6kU?])
  }

  /** Cut or padded with NULs to 40 bytes. */
  function Fixed40(b: bytes): (r: bytes)
    ensures |r| == 40
  {
    seq(40, i requires 0 <= i < 40 => if i < |b| then b[i] else 0)
  }

  function NameBytes(text: bytes, id: bytes): (b: bytes)
    ensures |b| == 42 + |text|
  {
    LE(|text|, 2) + (text + Fixed40(id))
  }

  function ProvBytes(p: Prov): (b: bytes)
    ensures |b| == 88 + |p.repo| + |p.conv|
  {
    NameBytes(p.repo, p.rev) + (NameBytes(p.conv, p.git) + (LE(p.scaleConv, 1) + (LE(p.unpackConv, 1) + LE(0, 2))))
  }

  function KindBytes(act: nat, feat: nat): (b: bytes)
    ensures |b| == 3
  {
    LE(act, 1) + (LE(1, 1) + LE(feat, 1))
  }

  function OptProvBytes(m: Model): bytes {
    if m.version == 7 then ProvBytes(m.prov) else []
  }

  function TokBytes(tokType: nat, tok: bytes, act: nat, feat: nat, prov: bytes): (b: bytes)
    ensures |b| == 8 + |tok| + |prov|
  {
    LE(tokType, 1) + (LE(|tok|, 4) + (tok + (KindBytes(act, feat) + prov)))
  }

  function HeadLen(m: Model): nat {
    52 + |m.tok| + |OptProvBytes(m)|
  }

  function HeadBytes(m: Model): (b: bytes)
    ensures |b| == HeadLen(m)
  {
    Preamble(m.version, m.numParams, 0) +
    (DimBytes(m.dims) + TokBytes(m.tokType, m.tok, m.act, Feat(m), OptProvBytes(m)))
  }

  function TernSection(name: Name, t: Tern): Section {
    Ternary(name, t.trits, [t.scale])
  }

  function Pick(b: bool, ss: seq<Section>): seq<Section> {
    if b then ss else []
  }

  function NormSections(b: Block, inner: bool, ffn: bool, l: nat): seq<Section> {
    [Floats(Layer(l, "rms_attn"), b.rmsAttn), Floats(Layer(l, "rms_ffn"), b.rmsFfn)] +
    Pick(inner, [Floats(Layer(l, "rms_inner"), b.inner)]) + Pick(ffn, [Floats(Layer(l, "rms_ffn_norm"), b.ffnNorm)])
  }

  function ProjSections(b: Block, l: nat): seq<Section> {
    [TernSection(Layer(l, "q"), b.q), TernSection(Layer(l, "k"), b.k), TernSection(Layer(l, "v"), b.v),
     TernSection(Layer(l, "o"), b.o), TernSection(Layer(l, "gate"), b.gate), TernSection(Layer(l, "up"), b.up),
     TernSection(Layer(l, "down"), b.down)]
  }

  function BlockSections(b: Block, inner: bool, ffn: bool, l: nat): seq<Section> {
    NormSections(b, inner, ffn, l) + ProjSections(b, l)
  }

  function LayerSections(m: Model, n: nat): seq<Section>
    requires n <= |m.blocks|
  {
    if n == 0 then []
    else LayerSections(m, n - 1) + BlockSections(m.blocks[n - 1], m.inner, m.ffnNorm, n - 1)
  }

  function UnembedSection(u: Unembed): Section {
    match u
    case TiedU => Tied(Plain("unembed"))
    case TernU(t) => TernSection(Plain("unembed"), t)
    case Q6kU(payload, scale) => Q6k(Plain("unembed"), payload, scale)
  }

  function EndSections(m: Model): seq<Section> {
    [Floats(Plain("rms_final"), m.rmsFinal), UnembedSection(m.unembed), Floats(Plain("theta"), [m.theta])]
  }

  function SectionsOf(m: Model): seq<Section> {
    [Q6k(Plain("embed"), m.embed, m.embedScale)] + LayerSections(m, |m.blocks|) + EndSections(m)
  }

  function FileBytes(m: Model): bytes {
    HeadBytes(m) + BodyBytes(SectionsOf(m))
  }

  // ----- well-shaped models ----------------------------------------------------------------------------------

  predicate PackedHas(t: Tern, rows: nat, cols: nat) {
    |t.trits| == Area(rows, cols) && t.scale < WORD
  }

  predicate BlockHas(b: Block, d: Dims, kDim: nat, ffn: nat) {
    && FloatsHas(b.rmsAttn, d.hidden) && FloatsHas(b.rmsFfn, d.hidden) && FloatsHas(b.inner, d.hidden)
    && FloatsHas(b.ffnNorm, d.intermediate)
    && PackedHas(b.q, d.hidden, d.qDim) && PackedHas(b.k, d.hidden, kDim) && PackedHas(b.v, d.hidden, kDim)
    && PackedHas(b.o, d.qDim, d.hidden) && PackedHas(b.gate, d.hidden, ffn) && PackedHas(b.up, d.hidden, ffn)
    && PackedHas(b.down, d.intermediate, d.qDim)
  }

  predicate AllHave(blocks: seq<Block>, d: Dims, kDim: nat, ffn: nat) {
    forall i: nat :: Peek(i) && i < |blocks| ==> BlockHas(blocks[i], d, kDim, ffn)
  }

  predicate HeadFits(m: Model) {
    && (m.version == 6 || m.version == 7) && m.numParams < Limit(8) && DimsFit(m.dims) && m.tokType < 256
    && |m.tok| < WORD && m.act < 2 && |m.prov.repo| < HALF && |m.prov.conv| < HALF && m.prov.scaleConv < 256
    && m.prov.unpackConv < 256 && m.dims.medusa == 0 && m.dims.heads > 0 && m.dims.hidden > 0
    && m.dims.tied == m.unembed.TiedU?
  }

  /** Tensors have the shapes the dimensions say; nothing is asked of the length of a Q6_K unembedding. */
  predicate BodyFits(m: Model) {
    var d := m.dims;
    && d.heads > 0 && d.hidden > 0 && |m.blocks| == d.layers
    && |m.embed| == Q6kSize(Area(d.hidden, d.vocab)) && m.embedScale < WORD && m.theta < WORD
    && FloatsHas(m.rmsFinal, d.hidden)
    && AllHave(m.blocks, d, KDim(d), Ffn(d))
    && (m.unembed.TernU? ==> PackedHas(m.unembed.t, d.hidden, d.vocab))
    && (m.unembed.Q6kU? ==> m.unembed.scale < WORD)
  }

  /** A Q6_K unembedding has the length of a flat encoding. */
  predicate FlatUnembed(m: Model) {
    m.unembed.Q6kU? ==> |m.unembed.payload| == Q6kSize(Area(m.dims.hidden, m.dims.vocab))
  }

  // ----- the header comes back -------------------------------------------------------------------------------

  function HeadOf(m: Model): Head {
    Head(m.version, m.numParams, m.dims, m.tokType, m.tok, m.act, 1, Feat(m),
         if m.version == 7 then Some(Trimmed(m.prov)) else None, HeadLen(m))
  }

  lemma {:induction false} FeatBits(m: Model)
    ensures Feat(m) < 16 && Bit(Feat(m), 0) == m.inner && Bit(Feat(m), 1) == m.ffnNorm && Bit(Feat(m), 2)
    ensures Bit(Feat(m), 3) == m.unembed.Q6kU?
  {
    var fs := [m.inner, m.ffnNorm, true, m.unembed.Q6kU?];
    BitsBelow(fs, 4);
    BitOfBits(fs, 0);
    BitOfBits(fs, 1);
    BitOfBits(fs, 2);
    BitOfBits(fs, 3);
    assert Pow2(2) == 4 && Pow2(4) == 4 * Pow2(2);
  }

  lemma {:induction false} FeatSmall(m: Model)
    ensures Feat(m) < 256
  {
    FeatBits(m);
  }

  lemma {:induction false} RawField(v: View, data: bytes, o: nat, x: bytes, rest: bytes)
    requires SeesRaw(v, data) && At(data, o, x + rest)
    ensures v.raw(o, |x|) == Ok(x) && At(data, o + |x|, rest)
  {
    AtSplit(data, o, x, rest);
  }

  lemma {:induction false} NameBack(v: View, data: bytes, o: nat, text: bytes, id: bytes)
    requires SeesNums(v, data) && SeesRaw(v, data) && |text| < HALF && At(data, o, NameBytes(text, id))
    ensures ReadName(v, o) == Ok((text, Fixed40(id)))
  {
    Field(v, data, o, |text|, 2, text + Fixed40(id));
    RawField(v, data, o + 2, text, Fixed40(id));
    assert v.raw(o + 2 + |text|, 40) == Ok(Fixed40(id));
  }

  lemma {:induction false} ConventionsBack(v: View, data: bytes, o: nat, a: nat, b: nat)
    requires SeesNums(v, data) && a < 256 && b < 256 && At(data, o, LE(a, 1) + (LE(b, 1) + LE(0, 2)))
    ensures Pair(Pair(v.num(o, 1), v.num(o + 1, 1)), v.num(o + 2, 2)) == Ok(((a, b), 0))
  {
    Field(v, data, o, a, 1, LE(b, 1) + LE(0, 2));
    Field(v, data, o + 1, b, 1, LE(0, 2));
    SeeNum(v, data, o + 2, 0, 2);
  }

  lemma {:induction false} ProvSplit(data: bytes, o: nat, a: bytes, b: bytes, c: bytes)
    requires At(data, o, a + (b + c))
    ensures At(data, o, a) && At(data, o + |a|, b) && At(data, o + |a| + |b|, c)
  {
    AtSplit(data, o, a, b + c);
    AtSplit(data, o + |a|, b, c);
  }

  lemma {:induction false} ProvParts(v: View, o: nat, r: (bytes, bytes), c: (bytes, bytes), a: nat, b: nat)
    requires ReadName(v, o) == Ok(r) && ReadName(v, o + 42 + |r.0|) == Ok(c)
    requires var o2 := o + 42 + |r.0| + 42 + |c.0|;
             Pair(Pair(v.num(o2, 1), v.num(o2 + 1, 1)), v.num(o2 + 2, 2)) == Ok(((a, b), 0))
    ensures ReadProv(v, o) == Ok((Prov(r.0, Strip(r.1), c.0, Strip(c.1), a, b), o + 88 + |r.0| + |c.0|))
  {
  }

  lemma {:induction false} ProvPlaces(data: bytes, o: nat, p: Prov)
    requires At(data, o, ProvBytes(p))
    ensures At(data, o, NameBytes(p.repo, p.rev)) && At(data, o + 42 + |p.repo|, NameBytes(p.conv, p.git))
    ensures At(data, o + 42 + |p.repo| + 42 + |p.conv|, LE(p.scaleConv, 1) + (LE(p.unpackConv, 1) + LE(0, 2)))
  {
    ProvSplit(data, o, NameBytes(p.repo, p.rev), NameBytes(p.conv, p.git),
              LE(p.scaleConv, 1) + (LE(p.unpackConv, 1) + LE(0, 2)));
  }

  lemma {:induction false} NamesBack(v: View, data: bytes, o: nat, p: Prov)
    requires SeesNums(v, data) && SeesRaw(v, data) && |p.repo| < HALF && |p.conv| < HALF && At(data, o, ProvBytes(p))
    ensures ReadName(v, o) == Ok((p.repo, Fixed40(p.rev)))
    ensures ReadName(v, o + 42 + |p.repo|) == Ok((p.conv, Fixed40(p.git)))
  {
    ProvPlaces(data, o, p);
    NameBack(v, data, o, p.repo, p.rev);
    NameBack(v, data, o + 42 + |p.repo|, p.conv, p.git);
  }

  lemma {:induction false} LastBack(v: View, data: bytes, o: nat, p: Prov)
    requires SeesNums(v, data) && p.scaleConv < 256 && p.unpackConv < 256 && At(data, o, ProvBytes(p))
    ensures var o2 := o + 42 + |p.repo| + 42 + |p.conv|;
            Pair(Pair(v.num(o2, 1), v.num(o2 + 1, 1)), v.num(o2 + 2, 2)) == Ok(((p.scaleConv, p.unpackConv), 0))
  {
    ProvPlaces(data, o, p);
    ConventionsBack(v, data, o + 42 + |p.repo| + 42 + |p.conv|, p.scaleConv, p.unpackConv);
  }

  lemma {:induction false} ProvBack(v: View, data: bytes, o: nat, p: Prov)
    requires SeesNums(v, data) && SeesRaw(v, data) && |p.repo| < HALF && |p.conv| < HALF
    requires p.scaleConv < 256 && p.unpackConv < 256 && At(data, o, ProvBytes(p))
    ensures ReadProv(v, o) == Ok((Trimmed(p), o + |ProvBytes(p)|))
  {
    NamesBack(v, data, o, p);
    LastBack(v, data, o, p);
    ProvParts(v, o, (p.repo, Fixed40(p.rev)), (p.conv, Fixed40(p.git)), p.scaleConv, p.unpackConv);
  }

  lemma {:induction false} KindsBack(v: View, data: bytes, o: nat, act: nat, feat: nat, rest: bytes)
    requires SeesNums(v, data) && act < 256 && feat < 256 && At(data, o, KindBytes(act, feat) + rest)
    ensures ReadKinds(v, o) == Ok((act, 1, feat)) && At(data, o + 3, rest)
  {
    AtSplit(data, o, KindBytes(act, feat), rest);
    Field(v, data, o, act, 1, LE(1, 1) + LE(feat, 1));
    Field(v, data, o + 1, 1, 1, LE(feat, 1));
    SeeNum(v, data, o + 2, feat, 1);
  }

  lemma {:induction false} TokBack(v: View, data: bytes, tokType: nat, tok: bytes, rest: bytes)
    requires SeesNums(v, data) && SeesRaw(v, data) && tokType < 256 && |tok| < WORD
    requires At(data, 44, LE(tokType, 1) + (LE(|tok|, 4) + (tok + rest)))
    ensures ReadTok(v) == Ok((tokType, tok)) && At(data, 49 + |tok|, rest)
  {
    Field(v, data, 44, tokType, 1, LE(|tok|, 4) + (tok + rest));
    Field(v, data, 45, |tok|, 4, tok + rest);
    RawField(v, data, 49, tok, rest);
  }

  lemma {:induction false} TokAndKindsBack(v: View, data: bytes, tokType: nat, tok: bytes, act: nat, feat: nat, prov: bytes)
    requires SeesNums(v, data) && SeesRaw(v, data) && tokType < 256 && |tok| < WORD && act < 256 && feat < 256
    requires At(data, 44, TokBytes(tokType, tok, act, feat, prov))
    ensures ReadTok(v) == Ok((tokType, tok)) && ReadKinds(v, 49 + |tok|) == Ok((act, 1, feat))
  {
    TokBack(v, data, tokType, tok, KindBytes(act, feat) + prov);
    KindsBack(v, data, 49 + |tok|, act, feat, prov);
  }

  lemma {:induction false} ProvPlace(data: bytes, tokType: nat, tok: bytes, act: nat, feat: nat, prov: bytes)
    requires At(data, 44, TokBytes(tokType, tok, act, feat, prov))
    ensures At(data, 52 + |tok|, prov)
  {
    AtSplit(data, 44, LE(tokType, 1), LE(|tok|, 4) + (tok + (KindBytes(act, feat) + prov)));
    AtSplit(data, 45, LE(|tok|, 4), tok + (KindBytes(act, feat) + prov));
    AtSplit(data, 49, tok, KindBytes(act, feat) + prov);
    AtSplit(data, 49 + |tok|, KindBytes(act, feat), prov);
  }

  /** Provenance as loaded: the two ids lose trailing NULs and whatever the field cut off. */
  function Trimmed(p: Prov): Prov {
    p.(rev := Strip(Fixed40(p.rev)), git := Strip(Fixed40(p.git)))
  }

  lemma {:induction false} SomeProv(v: View, o: nat, p: Prov, end: nat)
    requires ReadProv(v, o) == Ok((p, end))
    ensures ReadOptProv(v, 7, o) == Ok((Some(p), end))
  {
  }

  lemma {:induction false} OptProvBack(v: View, data: bytes, m: Model)
    requires SeesNums(v, data) && SeesRaw(v, data) && HeadFits(m) && At(data, 52 + |m.tok|, OptProvBytes(m))
    ensures ReadOptProv(v, m.version, 52 + |m.tok|) == Ok((HeadOf(m).prov, HeadLen(m)))
  {
    OptProvAt(v, data, m.version, 52 + |m.tok|, m.prov, OptProvBytes(m));
  }

  lemma {:induction false} OptProvAt(v: View, data: bytes, version: nat, o: nat, p: Prov, b: bytes)
    requires SeesNums(v, data) && SeesRaw(v, data) && |p.repo| < HALF && |p.conv| < HALF
    requires p.scaleConv < 256 && p.unpackConv < 256 && b == (if version == 7 then ProvBytes(p) else []) && At(data, o, b)
    ensures ReadOptProv(v, version, o) == Ok((if version == 7 then Some(Trimmed(p)) else None, o + |b|))
  {
    if version == 7 {
      ProvBack(v, data, o, p);
      SomeProv(v, o, Trimmed(p), o + |b|);
    }
  }

  lemma {:induction false} HeadParts(v: View, version: nat, numParams: nat, d: Dims, tok: (nat, bytes),
                                     kinds: (nat, nat, nat), prov: (Option<Prov>, nat))
    requires PreambleReads(v, version, numParams, 0) && (version == 6 || version == 7) && DimsRead(v, d)
    requires ReadTok(v) == Ok(tok) && ReadKinds(v, 49 + |tok.1|) == Ok(kinds)
    requires ReadOptProv(v, version, 49 + |tok.1| + 3) == Ok(prov)
    ensures LoadHead(v) == Ok(Head(version, numParams, d, tok.0, tok.1, kinds.0, kinds.1, kinds.2, prov.0, prov.1))
  {
  }

  lemma {:induction false} HeadPlaces(data: bytes, m: Model)
    requires At(data, 0, HeadBytes(m))
    ensures At(data, 0, Preamble(m.version, m.numParams, 0)) && At(data, 18, DimBytes(m.dims))
    ensures At(data, 44, TokBytes(m.tokType, m.tok, m.act, Feat(m), OptProvBytes(m)))
    ensures At(data, 52 + |m.tok|, OptProvBytes(m))
  {
    HeadSplit(data, Preamble(m.version, m.numParams, 0), DimBytes(m.dims),
              TokBytes(m.tokType, m.tok, m.act, Feat(m), OptProvBytes(m)));
    ProvPlace(data, m.tokType, m.tok, m.act, Feat(m), OptProvBytes(m));
  }

  lemma {:induction false} FrontFacts(v: View, data: bytes, m: Model)
    requires SeesNums(v, data) && HeadFits(m) && At(data, 0, HeadBytes(m))
    ensures PreambleReads(v, m.version, m.numParams, 0) && DimsRead(v, m.dims)
  {
    HeadPlaces(data, m);
    PreambleBack(v, data, m.version, m.numParams, 0);
    DimsBack(v, data, m.dims);
  }

  lemma {:induction false} TailFacts(v: View, data: bytes, m: Model)
    requires SeesNums(v, data) && SeesRaw(v, data) && HeadFits(m) && At(data, 0, HeadBytes(m))
    ensures ReadTok(v) == Ok((m.tokType, m.tok)) && ReadKinds(v, 49 + |m.tok|) == Ok((m.act, 1, Feat(m)))
  {
    HeadPlaces(data, m);
    FeatSmall(m);
    TokAndKindsBack(v, data, m.tokType, m.tok, m.act, Feat(m), OptProvBytes(m));
  }

  lemma {:induction false} ProvFacts(v: View, data: bytes, m: Model)
    requires SeesNums(v, data) && SeesRaw(v, data) && HeadFits(m) && At(data, 0, HeadBytes(m))
    ensures ReadOptProv(v, m.version, 52 + |m.tok|) == Ok((HeadOf(m).prov, HeadLen(m)))
  {
    HeadPlaces(data, m);
    OptProvBack(v, data, m);
  }

  lemma {:induction false} HeadBack(v: View, data: bytes, m: Model)
    requires SeesNums(v, data) && SeesRaw(v, data) && HeadFits(m) && At(data, 0, HeadBytes(m))
    ensures LoadHead(v) == Ok(HeadOf(m))
  {
    FrontFacts(v, data, m);
    TailFacts(v, data, m);
    ProvFacts(v, data, m);
    HeadParts(v, m.version, m.numParams, m.dims, (m.tokType, m.tok), (m.act, 1, Feat(m)), (HeadOf(m).prov, HeadLen(m)));
  }

  lemma {:induction false} HeadAccepted(m: Model)
    requires HeadFits(m)
    ensures LastError(HeadOf(m)).None?
  {
    FeatBits(m);
  }

  // ----- the body comes back ---------------------------------------------------------------------------------

  lemma {:induction false} BlockGood(b: Block, d: Dims, kDim: nat, ffn: nat, inner: bool, ffnNorm: bool, l: nat)
    requires BlockHas(b, d, kDim, ffn)
    ensures Good(NormSections(b, inner, ffnNorm, l), NormShapes(d, inner, ffnNorm, l))
    ensures Good(ProjSections(b, l), ProjShapes(d, kDim, ffn, l))
  {
  }

  lemma {:induction false} OneLayerGood(b: Block, d: Dims, kDim: nat, ffn: nat, feat: nat, inner: bool, ffnNorm: bool, l: nat)
    requires BlockHas(b, d, kDim, ffn) && Bit(feat, 0) == inner && Bit(feat, 1) == ffnNorm
    ensures Good(BlockSections(b, inner, ffnNorm, l), OneLayer(d, kDim, ffn, feat, l))
  {
    BlockGood(b, d, kDim, ffn, inner, ffnNorm, l);
    GoodAppend(NormSections(b, inner, ffnNorm, l), NormShapes(d, inner, ffnNorm, l), ProjSections(b, l), ProjShapes(d, kDim, ffn, l));
  }

  lemma {:induction false} LayersGood(m: Model, kDim: nat, ffn: nat, feat: nat, n: nat)
    requires n <= |m.blocks| && Bit(feat, 0) == m.inner && Bit(feat, 1) == m.ffnNorm
    requires AllHave(m.blocks, m.dims, kDim, ffn)
    ensures Good(LayerSections(m, n), LayerShapes(m.dims, kDim, ffn, feat, n))
  {
    if n > 0 {
      LayersGood(m, kDim, ffn, feat, n - 1);
      assert Peek(n - 1);
      OneLayerGood(m.blocks[n - 1], m.dims, kDim, ffn, feat, m.inner, m.ffnNorm, n - 1);
      GoodAppend(LayerSections(m, n - 1), LayerShapes(m.dims, kDim, ffn, feat, n - 1),
                 BlockSections(m.blocks[n - 1], m.inner, m.ffnNorm, n - 1), OneLayer(m.dims, kDim, ffn, feat, n - 1));
    }
  }

  lemma {:induction false} EndGood(m: Model)
    requires BodyFits(m) && FlatUnembed(m) && m.dims.tied == m.unembed.TiedU?
    ensures Good(EndSections(m), EndShapes(m.dims, m.unembed.Q6kU?))
  {
  }

  function FrontSections(m: Model): seq<Section> {
    [Q6k(Plain("embed"), m.embed, m.embedScale)] + LayerSections(m, |m.blocks|)
  }

  function FrontShapes(d: Dims, kDim: nat, ffn: nat, feat: nat): seq<Shape> {
    [Q6kOf(Plain("embed"), Area(d.hidden, d.vocab))] + LayerShapes(d, kDim, ffn, feat, d.layers)
  }

  lemma {:induction false} FrontGood(m: Model)
    requires HeadFits(m) && BodyFits(m)
    ensures Good(FrontSections(m), FrontShapes(m.dims, KDim(m.dims), Ffn(m.dims), Feat(m)))
  {
    FeatBits(m);
    LayersGood(m, KDim(m.dims), Ffn(m.dims), Feat(m), |m.blocks|);
    GoodAppend([Q6k(Plain("embed"), m.embed, m.embedScale)], [Q6kOf(Plain("embed"), Area(m.dims.hidden, m.dims.vocab))],
               LayerSections(m, |m.blocks|), LayerShapes(m.dims, KDim(m.dims), Ffn(m.dims), Feat(m), m.dims.layers));
  }

  /** The loader asks for exactly the records the writer wrote. */
  lemma {:induction false} PlanFits(m: Model)
    requires HeadFits(m) && BodyFits(m) && FlatUnembed(m)
    ensures LastError(HeadOf(m)).None? && Good(SectionsOf(m), PlanOf(HeadOf(m)))
  {
    FeatBits(m);
    FrontGood(m);
    EndGood(m);
    GoodAppend(FrontSections(m), FrontShapes(m.dims, KDim(m.dims), Ffn(m.dims), Feat(m)),
               EndSections(m), EndShapes(m.dims, m.unembed.Q6kU?));
  }

  // ----- writer, loader and auditor --------------------------------------------------------------------------

  lemma {:induction false} BodyLoads(v: View, data: bytes, h: Head, ss: seq<Section>)
    requires Sees(v, data) && LastError(h).None? && Good(ss, PlanOf(h))
    requires At(data, h.end, BodyBytes(ss)) && |data| == h.end + |BodyBytes(ss)|
    ensures LoadBody(Reading(v), h) == Ok(Loaded(h, ss, |data|))
  {
    SectionsBack(v, data, h.end, ss, PlanOf(h), |data|);
  }

  lemma {:induction false} FilePlaces(m: Model, data: bytes)
    requires data == FileBytes(m)
    ensures At(data, 0, HeadBytes(m)) && At(data, HeadLen(m), BodyBytes(SectionsOf(m)))
    ensures |data| == HeadLen(m) + |BodyBytes(SectionsOf(m))|
  {
    HeadAndBody(HeadBytes(m), BodyBytes(SectionsOf(m)));
  }

  lemma {:induction false} HeadOfFile(m: Model, data: bytes)
    requires HeadFits(m) && At(data, 0, HeadBytes(m))
    ensures LoadHead(ViewOf(data)) == Ok(HeadOf(m))
  {
    ViewSees(data);
    HeadBack(ViewOf(data), data, m);
  }

  lemma {:induction false} FlatLoads(m: Model)
    requires HeadFits(m) && BodyFits(m) && FlatUnembed(m)
    ensures Load(FileBytes(m)) == Ok(Loaded(HeadOf(m), SectionsOf(m), |FileBytes(m)|))
  {
    var data := FileBytes(m);
    FilePlaces(m, data);
    HeadOfFile(m, data);
    PlanFits(m);
    ViewSees(data);
    BodyLoads(ViewOf(data), data, HeadOf(m), SectionsOf(m));
  }

  lemma {:induction false} SectionLen(s: Section, sh: Shape)
    requires Matches(s, sh) && Static(sh)
    ensures |Bytes(s)| == ShapeLen(sh)
  {
  }

  lemma {:induction false} JoinLen(ss: seq<Section>, shapes: seq<Shape>, k: nat)
    requires AllMatch(ss, shapes) && AllStatic(shapes) && k <= |ss|
    ensures |Join(AllBytes(ss), k)| == SumLen(shapes, k)
  {
    if k > 0 {
      JoinLen(ss, shapes, k - 1);
      SectionLen(ss[k - 1], shapes[k - 1]);
    }
  }

  lemma {:induction false} JoinOfAppend(a: seq<bytes>, b: seq<bytes>, k: nat)
    requires k <= |b|
    ensures |Join(a + b, |a| + k)| == |Join(a, |a|)| + |Join(b, k)|
  {
    if k == 0 {
      JoinOfPrefix(a, b, |a|);
    } else {
      JoinOfAppend(a, b, k - 1);
      assert (a + b)[|a| + k - 1] == b[k - 1];
    }
  }

  lemma {:induction false} WholeJoins(a: seq<bytes>, b: seq<bytes>)
    ensures |Join(a + b, |a + b|)| == |Join(a, |a|)| + |Join(b, |b|)|
  {
    JoinOfAppend(a, b, |b|);
  }

  lemma {:induction false} BodyOfAppend(a: seq<Section>, b: seq<Section>)
    ensures |BodyBytes(a + b)| == |BodyBytes(a)| + |BodyBytes(b)|
  {
    AllBytesOfAppend(a, b);
    WholeJoins(AllBytes(a), AllBytes(b));
  }

  lemma {:induction false} ThreeBodies(a: Section, b: Section, c: Section)
    ensures |BodyBytes([a, b, c])| == |Bytes(a)| + |Bytes(b)| + |Bytes(c)|
  {
    var p := AllBytes([a, b, c]);
    assert Join(p, 0) == [];
    assert Join(p, 1) == Join(p, 0) + p[0];
    assert Join(p, 2) == Join(p, 1) + p[1];
    assert Join(p, 3) == Join(p, 2) + p[2];
  }

  lemma {:induction false} EndLen(m: Model)
    requires BodyFits(m) && m.dims.tied == m.unembed.TiedU?
    ensures |BodyBytes(EndSections(m))| + (if m.unembed.Q6kU? then Q6kSize(Area(m.dims.hidden, m.dims.vocab)) else 0) ==
            Total(EndShapes(m.dims, m.unembed.Q6kU?)) + (if m.unembed.Q6kU? then |m.unembed.payload| else 0)
  {
    EndTotal(m.dims, m.unembed.Q6kU?);
    ThreeBodies(Floats(Plain("rms_final"), m.rmsFinal), UnembedSection(m.unembed), Floats(Plain("theta"), [m.theta]));
  }

  lemma {:induction false} FrontLen(m: Model)
    requires HeadFits(m) && BodyFits(m)
    ensures |BodyBytes(FrontSections(m))| == Total(FrontShapes(m.dims, KDim(m.dims), Ffn(m.dims), Feat(m)))
  {
    FrontGood(m);
    PlanIsStatic(m.dims, KDim(m.dims), Ffn(m.dims), Feat(m));
    var shapes := FrontShapes(m.dims, KDim(m.dims), Ffn(m.dims), Feat(m));
    FrontIsStatic(shapes, EndShapes(m.dims, Bit(Feat(m), 3)));
    JoinLen(FrontSections(m), shapes, |shapes|);
  }

  lemma {:induction false} FrontIsStatic(a: seq<Shape>, b: seq<Shape>)
    requires AllStatic(a + b)
    ensures AllStatic(a)
  {
    forall i | 0 <= i < |a| ensures Static(a[i]) {
      assert (a + b)[i] == a[i];
    }
  }

  /** What the writer wrote against what the reader will ask for: they differ by the unembedding alone. */
  lemma {:induction false} BodyLen(m: Model)
    requires HeadFits(m) && BodyFits(m)
    ensures |BodyBytes(SectionsOf(m))| + (if m.unembed.Q6kU? then Q6kSize(Area(m.dims.hidden, m.dims.vocab)) else 0) ==
            Total(Plan(m.dims, KDim(m.dims), Ffn(m.dims), Feat(m))) +
            (if m.unembed.Q6kU? then |m.unembed.payload| else 0)
  {
    FeatBits(m);
    FrontLen(m);
    EndLen(m);
    BodyOfAppend(FrontSections(m), EndSections(m));
    TotalAppend(FrontShapes(m.dims, KDim(m.dims), Ffn(m.dims), Feat(m)), EndShapes(m.dims, m.unembed.Q6kU?));
  }

  lemma {:induction false} AuditValue(m: Model, data: bytes)
    requires HeadFits(m) && At(data, 0, HeadBytes(m))
    ensures ParseSize(data).Ok? <==> InCaps(HeadOf(m))
    ensures ParseSize(data).Ok? ==>
              ParseSize(data).value == HeadLen(m) + Total(Plan(m.dims, KDim(m.dims), Ffn(m.dims), Feat(m)))
  {
    HeadOfFile(m, data);
    HeadAccepted(m);
    ViewIsBounded(data);
    HeadAgrees(ViewOf(data), |data|, HeadOf(m));
    FeatBits(m);
    AuditWithoutHeads(m.dims, KDim(m.dims), Ffn(m.dims), Feat(m), HeadLen(m));
  }

  lemma {:induction false} FileLen(m: Model)
    requires HeadFits(m) && BodyFits(m)
    ensures |FileBytes(m)| == HeadLen(m) + Total(Plan(m.dims, KDim(m.dims), Ffn(m.dims), Feat(m))) <==> FlatUnembed(m)
  {
    FilePlaces(m, FileBytes(m));
    BodyLen(m);
  }

  lemma {:induction false} LoadedEnd(m: Model, data: bytes)
    requires HeadFits(m) && At(data, 0, HeadBytes(m)) && Load(data).Ok?
    ensures Load(data).value.end == HeadLen(m) + Total(Plan(m.dims, KDim(m.dims), Ffn(m.dims), Feat(m)))
  {
    HeadOfFile(m, data);
    HeadAccepted(m);
    CursorIsPlan(ViewOf(data), HeadOf(m));
  }

  /** Loading inverts writing: every header field, the tokenizer, provenance, packed tensors and scales come back, and
      the cursor stops at the end of the file, if and only if a Q6_K unembedding has the flat length. */
  lemma {:induction false} LoadInvertsWrite(m: Model)
    requires HeadFits(m) && BodyFits(m)
    ensures Load(FileBytes(m)) == Ok(Loaded(HeadOf(m), SectionsOf(m), |FileBytes(m)|)) <==> FlatUnembed(m)
  {
    if FlatUnembed(m) {
      FlatLoads(m);
    } else if Load(FileBytes(m)).Ok? {
      FilePlaces(m, FileBytes(m));
      LoadedEnd(m, FileBytes(m));
      FileLen(m);
    }
  }

  lemma {:induction false} AuditOfFile(m: Model)
    requires HeadFits(m)
    ensures ParseSize(FileBytes(m)).Ok? <==> InCaps(HeadOf(m))
    ensures ParseSize(FileBytes(m)).Ok? ==>
              ParseSize(FileBytes(m)).value == HeadLen(m) + Total(Plan(m.dims, KDim(m.dims), Ffn(m.dims), Feat(m)))
  {
    FilePlaces(m, FileBytes(m));
    AuditValue(m, FileBytes(m));
  }

  /** The auditor gives the size of a written file if and only if the header strings are within its caps and a Q6_K
      unembedding has the flat length. */
  lemma {:induction false} AuditOfWritten(m: Model)
    requires HeadFits(m) && BodyFits(m)
    ensures ParseSize(FileBytes(m)) == Ok(|FileBytes(m)|) <==> InCaps(HeadOf(m)) && FlatUnembed(m)
  {
    AuditOfFile(m);
    FileLen(m);
    SameSize(ParseSize(FileBytes(m)), InCaps(HeadOf(m)), FlatUnembed(m),
             HeadLen(m) + Total(Plan(m.dims, KDim(m.dims), Ffn(m.dims), Feat(m))), |FileBytes(m)|);
  }

  // ----- per-row unembeddings --------------------------------------------------------------------------------

  /** Bytes of a matrix encoded row by row, each row padded to whole blocks. */
  function PerRowSize(rows: nat, cols: nat): nat {
    Area(rows, Q6kSize(cols))
  }

  lemma {:induction false} AreaScales(rows: nat, c: nat, x: nat)
    ensures Area(rows, c * x) == c * Area(rows, x)
  {
    if rows > 0 {
      AreaScales(rows - 1, c, x);
    }
  }

  lemma {:induction false} AreaAdds(rows: nat, x: nat, y: nat)
    ensures Area(rows, x + y) == Area(rows, x) + Area(rows, y)
  {
    if rows > 0 {
      AreaAdds(rows - 1, x, y);
    }
  }

  /** Zeros that fill a row up to whole blocks. */
  function RowPadding(cols: nat): nat {
    (256 - cols % 256) % 256
  }

  lemma {:induction false} FewerBlocks(cells: nat, padding: nat, blocks: nat)
    requires cells + padding == 256 * blocks
    ensures (cells + 255) / 256 == blocks <==> padding < 256
  {
  }

  /** Row-by-row encoding keeps the flat length if and only if all rows together are padded by less than a block. */
  lemma {:induction false} PerRowLength(rows: nat, cols: nat)
    ensures PerRowSize(rows, cols) == Q6kSize(Area(rows, cols)) <==> rows * RowPadding(cols) < 256
  {
    var k := (cols + 255) / 256;
    assert 256 * k == cols + RowPadding(cols);
    AreaScales(rows, 256, k);
    AreaScales(rows, 210, k);
    AreaAdds(rows, cols, RowPadding(cols));
    AreaIsProduct(rows, RowPadding(cols));
    FewerBlocks(Area(rows, cols), Area(rows, RowPadding(cols)), Area(rows, k));
  }

  /** The unembedding was encoded row by row, as the converter's option asks. */
  predicate PerRowUnembed(m: Model) {
    m.unembed.Q6kU? && |m.unembed.payload| == PerRowSize(m.dims.hidden, m.dims.vocab)
  }

  /** Of a model written with that option, the loader gives back the records, and the auditor the size, exactly when
      the rows' padding stays below a block in all. */
  lemma {:induction false} PerRowFiles(m: Model)
    requires HeadFits(m) && BodyFits(m) && PerRowUnembed(m)
    ensures Load(FileBytes(m)) == Ok(Loaded(HeadOf(m), SectionsOf(m), |FileBytes(m)|))
            <==> m.dims.hidden * RowPadding(m.dims.vocab) < 256
    ensures ParseSize(FileBytes(m)) == Ok(|FileBytes(m)|)
            <==> InCaps(HeadOf(m)) && m.dims.hidden * RowPadding(m.dims.vocab) < 256
  {
    PerRowLength(m.dims.hidden, m.dims.vocab);
    LoadInvertsWrite(m);
    AuditOfWritten(m);
  }

  function Repeated<T>(n: nat, x: T): (r: seq<T>)
    ensures |r| == n
  {
    seq(n, _ => x)
  }

  /** A model of no layers, two rows and one column, its unembedding written row by row. */
  lemma {:induction false} TwoRows() returns (m: Model)
    ensures HeadFits(m) && BodyFits(m) && PerRowUnembed(m) && m.dims.hidden * RowPadding(m.dims.vocab) >= 256
  {
    assert Area(0, 1) == 0 && Area(1, 1) == 1 && Area(2, 1) == 2;
    assert Area(0, 210) == 0 && Area(1, 210) == 210 && Area(2, 210) == 420;
    m := Model(6, 0, Dims(2, 0, 1, 1, 0, 0, 0, 0, 0, false), 0, [], 0, Prov([], [], [], [], 0, 0),
               Repeated(210, 0 as byte), 0, false, false, [], [0, 0], Q6kU(Repeated(420, 0 as byte), 0), 0);
  }

  /** Two rows of one weight take two blocks instead of one: neither reader gives back what was written. */
  lemma {:induction false} PerRowFileMisread() returns (m: Model)
    ensures HeadFits(m) && BodyFits(m) && PerRowUnembed(m) && m.dims.hidden * RowPadding(m.dims.vocab) >= 256
    ensures Load(FileBytes(m)) != Ok(Loaded(HeadOf(m), SectionsOf(m), |FileBytes(m)|))
    ensures ParseSize(FileBytes(m)) != Ok(|FileBytes(m)|)
  {
    m := TwoRows();
    PerRowFiles(m);
  }

  // ----- short identifiers come back whole -------------------------------------------------------------------

  lemma {:induction false} StripPadding(b: bytes, n: nat)
    requires n <= |b| && (forall i :: n <= i < |b| ==> b[i] == 0) && (n == 0 || b[n - 1] != 0)
    ensures Strip(b) == b[..n]
    decreases |b|
  {
    if n < |b| {
      StripPadding(b[..|b| - 1], n);
      assert b[..|b| - 1][..n] == b[..n];
    } else {
      assert b[..n] == b;
    }
  }

  /** A revision or commit id of at most 40 bytes that does not end in NUL survives the fixed-width field. */
  lemma {:induction false} IdSurvives(id: bytes)
    requires |id| <= 40 && (id == [] || id[|id| - 1] != 0)
    ensures Strip(Fixed40(id)) == id
  {
    StripPadding(Fixed40(id), |id|);
    assert Fixed40(id)[..|id|] == id;
  }

  // ----- the writer's and the loader's loops -----------------------------------------------------------------

  /** The file being written: everything sent to it so far. */
  class Writer {
    var f: bytes
    ghost var head: bytes
    ghost var done: seq<Section>

    ghost predicate Valid()
      reads this
    {
      forall k: nat :: Peek(k) ==> f == head + BodyBytes(done)
    }

    constructor (head: bytes)
      ensures Valid() && this.head == head && done == []
    {
      f, this.head, done := head, head, [];
    }

    method Write(s: Section)
      requires Valid()
      modifies this
      ensures Valid() && done == old(done) + [s] && head == old(head)
    {
      assert Peek(0);
      BodyOneMore(done, s);
      Assoc(head, BodyBytes(done), Bytes(s));
      f := f + Bytes(s);
      done := done + [s];
    }

    method WriteAll(ss: seq<Section>)
      requires Valid()
      modifies this
      ensures Valid() && done == old(done) + ss && head == old(head)
    {
      ghost var before := done;
      var i := 0;
      while i < |ss|
        invariant 0 <= i <= |ss|
        invariant Valid() && done == before + ss[..i] && head == old(head)
      {
        assert ss[..i + 1] == ss[..i] + [ss[i]];
        Assoc(before, ss[..i], [ss[i]]);
        Write(ss[i]);
        i := i + 1;
      }
      assert ss[..i] == ss;
    }

    method WriteLayers(m: Model)
      requires Valid()
      modifies this
      ensures Valid() && done == old(done) + LayerSections(m, |m.blocks|) && head == old(head)
    {
      ghost var before := done;
      var l := 0;
      while l < |m.blocks|
        invariant 0 <= l <= |m.blocks|
        invariant Valid() && done == before + LayerSections(m, l) && head == old(head)
      {
        var ss := BlockSections(m.blocks[l], m.inner, m.ffnNorm, l);
        Assoc(before, LayerSections(m, l), ss);
        WriteAll(ss);
        l := l + 1;
      }
    }
  }

  /** The converter's sequence of writes. */
  method WriteModel(m: Model) returns (file: bytes)
    ensures file == FileBytes(m)
  {
    var w := new Writer(HeadBytes(m));
    var e := [Q6k(Plain("embed"), m.embed, m.embedScale)];
    w.WriteAll(e);
    assert [] + e == e;
    w.WriteLayers(m);
    w.WriteAll(EndSections(m));
    assert Peek(0);
    file := w.f;
  }

  method TakeLayers(cur: Cursor, h: Head)
    requires cur.Valid() && h.dims.heads > 0 && h.dims.hidden > 0
    modifies cur
    ensures cur.Valid() && cur.asked == old(cur.asked) + LayerShapes(h.dims, KDim(h.dims), Ffn(h.dims), h.feat, h.dims.layers)
  {
    var d, kDim, ffn := h.dims, KDim(h.dims), Ffn(h.dims);
    ghost var before := cur.asked;
    var l := 0;
    while l < d.layers
      invariant 0 <= l <= d.layers
      invariant cur.Valid() && cur.asked == before + LayerShapes(d, kDim, ffn, h.feat, l)
    {
      var shapes := OneLayer(d, kDim, ffn, h.feat, l);
      Assoc(before, LayerShapes(d, kDim, ffn, h.feat, l), shapes);
      cur.TakeAll(shapes);
      l := l + 1;
    }
  }

  method TakeBody(cur: Cursor, h: Head)
    requires cur.Valid() && cur.asked == [] && h.dims.heads > 0 && h.dims.hidden > 0
    modifies cur
    ensures cur.Valid() && cur.asked == PlanOf(h)
  {
    var e := [Q6kOf(Plain("embed"), Area(h.dims.hidden, h.dims.vocab))];
    cur.TakeAll(e);
    assert [] + e == e;
    TakeLayers(cur, h);
    cur.TakeAll(EndShapes(h.dims, Bit(h.feat, 3)));
  }

  method LoadRecords(v: View, h: Head) returns (r: Result<Loaded>)
    ensures r == LoadBody(Reading(v), h)
  {
    var e := LastError(h);
    if e.Some? {
      return Err(e.value);
    }
    var cur := new Cursor(Reading(v), h.end);
    TakeBody(cur, h);
    assert Peek(0);
    r := WithBody(h, cur.State());
  }

  /** The loader: header, then records behind a moving cursor. */
  method LoadModel(data: bytes) returns (r: Result<Loaded>)
    ensures r == Load(data)
  {
    var head := LoadHead(ViewOf(data));
    if head.Err? {
      r := Err(head.reason);
    } else {
      r := LoadRecords(ViewOf(data), head.value);
    }
  }
}
