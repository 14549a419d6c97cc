/** The .bfz container of a recurrent mixture-of-experts student (tools/export_no_std.py): the writer
    `_Body`/`_build_body`/`export_bfz` and the independent reader `read_bfz`.
 */
module Bfz {
  import opened Basics
  import opened Wire
  import opened Trits
  import opened Sections
  import opened Header

  const BODY_OFFSET := 72

  datatype Tern = Tern(trits: seq<trit>, scales: seq<nat>)

  datatype Expert = ExpertOf(gate: Tern, up: Tern, down: Tern)

  /** An embedding-shaped matrix in one of its three encodings. */
  datatype Matrix = TernM(t: Tern) | Q6kM(payload: bytes, scale: nat) | ExactM(xs: seq<nat>, scale: nat)

  datatype Routing = Routing(centers: seq<int>, widths: seq<int>, centersOffset: seq<nat>, centersScale: seq<nat>,
                             widthsScale: seq<nat>, wg: Tern)

  datatype Model = Model(
    numParams: nat, dims: Dims, act: nat, topK: nat, headDim: nat, halting: bool, eps: nat,
    embed: Matrix, rmsAttn: seq<nat>, rmsFfn: seq<nat>, inner: Option<seq<nat>>, ffnNorm: Option<seq<nat>>,
    q: Tern, k: Tern, v: Tern, o: Tern, experts: seq<Expert>, routing: Routing, masks: seq<seq<trit>>,
    steps: nat, stepEmb: Tern, haltParams: seq<nat>, rmsFinal: seq<nat>, unembed: Option<Matrix>, theta: nat,
    lora: seq<Factors>)

  // ----- header and config -------------------------------------------------------------------------------

  function EmbedType(m: Matrix): nat {
    match m case TernM(_) => 0 case Q6kM(_, _) => 1 case ExactM(_, _) => 3
  }

  /** Feature flags, lowest bit first: inner norm, ffn norm, theta, Q6_K, experts, routing, masks, steps. */
  function Flags(m: Model): seq<bool> {
    [m.inner.Some?, m.ffnNorm.Some?, true, m.embed.Q6kM?, m.experts != [], true, m.masks != [], true]
  }

  datatype Config = Config(experts: nat, topK: nat, steps: nat, headDim: nat, halting: nat, masks: nat, lora: nat,
                           eps: nat)

  function ConfigOf(m: Model): Config {
    Config(|m.experts|, m.topK, m.steps, m.headDim, if m.halting then 1 else 0, |m.masks|, |m.lora|, m.eps)
  }

  predicate ConfigFits(c: Config) {
    && c.experts < HALF && c.topK < HALF && c.steps < HALF && c.headDim < HALF && c.halting < HALF
    && c.masks < HALF && c.lora < HALF && c.eps < WORD
  }

  function TailBytes(act: nat, embedType: nat, feat: nat): (b: bytes)
    ensures |b| == 8
  {
    LE(0, 1) + (LE(0, 4) + (LE(act, 1) + (LE(embedType, 1) + LE(feat, 1))))
  }

  function ConfigBytes(c: Config): (b: bytes)
    ensures |b| == 20
  {
    LE(c.experts, 2) + (LE(c.topK, 2) + (LE(c.steps, 2) + (LE(c.headDim, 2) + (LE(c.halting, 2) +
    (LE(c.masks, 2) + (LE(c.lora, 2) + (LE(0, 2) + LE(c.eps, 4))))))))
  }

  function HeadBytes(m: Model): (b: bytes)
    ensures |b| == BODY_OFFSET
  {
    Preamble(6, m.numParams, 3) + (DimBytes(m.dims) +
    (TailBytes(m.act, EmbedType(m.embed), Bits(Flags(m))) + ConfigBytes(ConfigOf(m))))
  }

  // ----- records in file order -----------------------------------------------------------------------------

  function TernSection(name: Name, t: Tern): Section {
    Ternary(name, t.trits, t.scales)
  }

  function MatrixSection(name: Name, m: Matrix): Section {
    match m
    case TernM(t) => TernSection(name, t)
    case Q6kM(payload, scale) => Q6k(name, payload, scale)
    case ExactM(xs, scale) => Exact(name, xs, scale)
  }

  function OptFloats(name: string, xs: Option<seq<nat>>): seq<Section> {
    if xs.Some? then [Floats(Plain(name), xs.value)] else []
  }

  function ExpertSections(es: seq<Expert>, n: nat): seq<Section>
    requires n <= |es|
  {
    if n == 0 then []
    else
      ExpertSections(es, n - 1) +
      [TernSection(Name.Expert(n - 1, "gate"), es[n - 1].gate), TernSection(Name.Expert(n - 1, "up"), es[n - 1].up),
       TernSection(Name.Expert(n - 1, "down"), es[n - 1].down)]
  }

  function MaskSections(masks: seq<seq<trit>>, n: nat): seq<Section>
    requires n <= |masks|
  {
    if n == 0 then [] else MaskSections(masks, n - 1) + [Mask(MaskNo(n - 1), masks[n - 1])]
  }

  function FrontSections(m: Model): seq<Section> {
    [MatrixSection(Plain("embed"), m.embed), Floats(Plain("rms_attn"), m.rmsAttn), Floats(Plain("rms_ffn"), m.rmsFfn)]
  }

  function ProjSections(m: Model): seq<Section> {
    [TernSection(Plain("q"), m.q), TernSection(Plain("k"), m.k), TernSection(Plain("v"), m.v),
     TernSection(Plain("o"), m.o)]
  }

  function RoutingSections(r: Routing): seq<Section> {
    [Shorts(Plain("routing.centers_q"), r.centers), Shorts(Plain("routing.widths_q"), r.widths),
     Floats(Plain("routing.centers_offset"), r.centersOffset), Floats(Plain("routing.centers_scale"), r.centersScale),
     Floats(Plain("routing.widths_scale"), r.widthsScale), TernSection(Plain("routing.wg"), r.wg)]
  }

  function UnembedSection(u: Option<Matrix>): Section {
    if u.None? then Tied(Plain("unembed")) else MatrixSection(Plain("unembed"), u.value)
  }

  function LastSections(m: Model): seq<Section> {
    [TernSection(Plain("step_emb"), m.stepEmb), Floats(Plain("act_halting"), m.haltParams),
     Floats(Plain("rms_final"), m.rmsFinal), UnembedSection(m.unembed), Floats(Plain("theta"), [m.theta])]
  }

  function LoraSections(lora: seq<Factors>): seq<Section> {
    if lora == [] then [] else [Lora(Plain("lora"), lora)]
  }

  function BlockSections(m: Model): seq<Section> {
    FrontSections(m) + OptFloats("rms_inner", m.inner) + OptFloats("rms_ffn_norm", m.ffnNorm) + ProjSections(m) +
    ExpertSections(m.experts, |m.experts|)
  }

  function SectionsOf(m: Model): seq<Section> {
    BlockSections(m) + RoutingSections(m.routing) + MaskSections(m.masks, |m.masks|) + LastSections(m) +
    LoraSections(m.lora)
  }

  // ----- shapes as the reader derives them -----------------------------------------------------------------

  function MatrixShape(name: Name, embedType: nat, rows: nat, cols: nat): Shape {
    var n := Area(rows, cols);
    if embedType == 0 then TernaryOf(name, n, rows) else if embedType == 1 then Q6kOf(name, n) else ExactOf(name, n)
  }

  function TernShape(name: Name, rows: nat, cols: nat): Shape {
    TernaryOf(name, Area(rows, cols), rows)
  }

  function ExpertShapes(d: Dims, n: nat): seq<Shape> {
    if n == 0 then []
    else
      ExpertShapes(d, n - 1) +
      [TernShape(Name.Expert(n - 1, "gate"), d.intermediate, d.hidden),
       TernShape(Name.Expert(n - 1, "up"), d.intermediate, d.hidden),
       TernShape(Name.Expert(n - 1, "down"), d.hidden, d.intermediate)]
  }

  function MaskShapes(n: nat): seq<Shape> {
    if n == 0 then [] else MaskShapes(n - 1) + [MaskOf(MaskNo(n - 1))]
  }

  function FrontShapes(d: Dims, embedType: nat): seq<Shape> {
    [MatrixShape(Plain("embed"), embedType, d.hidden, d.vocab), FloatsOf(Plain("rms_attn"), d.hidden),
     FloatsOf(Plain("rms_ffn"), d.hidden)]
  }

  function ProjShapes(d: Dims, headDim: nat): seq<Shape> {
    var kDim := Area(d.kvHeads, headDim);
    [TernShape(Plain("q"), d.qDim, d.hidden), TernShape(Plain("k"), kDim, d.hidden),
     TernShape(Plain("v"), kDim, d.hidden), TernShape(Plain("o"), d.hidden, d.qDim)]
  }

  function RoutingShapes(d: Dims, experts: nat): seq<Shape> {
    var n := Area(experts, d.hidden);
    [ShortsOf(Plain("routing.centers_q"), n), ShortsOf(Plain("routing.widths_q"), n),
     FloatsOf(Plain("routing.centers_offset"), d.hidden), FloatsOf(Plain("routing.centers_scale"), d.hidden),
     FloatsOf(Plain("routing.widths_scale"), d.hidden), TernShape(Plain("routing.wg"), experts, d.hidden)]
  }

  function StepShapes(d: Dims, steps: nat): seq<Shape> {
    [TernShape(Plain("step_emb"), steps, d.hidden)]
  }

  function EndShapes(d: Dims, embedType: nat): seq<Shape> {
    [FloatsOf(Plain("act_halting"), 2), FloatsOf(Plain("rms_final"), d.hidden),
     if d.tied then TiedOf(Plain("unembed")) else MatrixShape(Plain("unembed"), embedType, d.hidden, d.vocab)]
  }

  function BlockShapes(d: Dims, embedType: nat, feat: nat, c: Config): seq<Shape> {
    FrontShapes(d, embedType) + When(Bit(feat, 0), [FloatsOf(Plain("rms_inner"), d.hidden)]) +
    When(Bit(feat, 1), [FloatsOf(Plain("rms_ffn_norm"), d.intermediate)]) + ProjShapes(d, c.headDim) +
    When(Bit(feat, 4), ExpertShapes(d, c.experts))
  }

  /** Every length the reader uses: a function of header and config alone. */
  function Plan(d: Dims, embedType: nat, feat: nat, c: Config): seq<Shape> {
    BlockShapes(d, embedType, feat, c) + When(Bit(feat, 5), RoutingShapes(d, c.experts)) +
    When(Bit(feat, 6), MaskShapes(c.masks)) + When(Bit(feat, 7), StepShapes(d, c.steps)) + EndShapes(d, embedType) +
    When(Bit(feat, 2), [FloatsOf(Plain("theta"), 1)]) + When(c.lora != 0, [LoraOf(Plain("lora"), c.lora)])
  }

  // ----- well-shaped models ----------------------------------------------------------------------------------

  predicate TernHas(t: Tern, rows: nat, cols: nat) {
    |t.trits| == Area(rows, cols) && |t.scales| == rows && AllBelow(t.scales, WORD)
  }

  predicate MatrixHas(m: Matrix, rows: nat, cols: nat) {
    match m
    case TernM(t) => TernHas(t, rows, cols)
    case Q6kM(payload, scale) => |payload| == Q6kSize(Area(rows, cols)) && scale < WORD
    case ExactM(xs, scale) => FloatsHas(xs, Area(rows, cols)) && scale < WORD
  }

  predicate ExpertHas(e: Expert, d: Dims) {
    TernHas(e.gate, d.intermediate, d.hidden) && TernHas(e.up, d.intermediate, d.hidden) &&
    TernHas(e.down, d.hidden, d.intermediate)
  }

  predicate RoutingHas(r: Routing, d: Dims, experts: nat) {
    && |r.centers| == Area(experts, d.hidden) && AllShort(r.centers)
    && |r.widths| == Area(experts, d.hidden) && AllShort(r.widths)
    && FloatsHas(r.centersOffset, d.hidden) && FloatsHas(r.centersScale, d.hidden)
    && FloatsHas(r.widthsScale, d.hidden) && TernHas(r.wg, experts, d.hidden)
  }

  /** Tensors have the shapes the dimensions say, both matrices share one encoding, and numbers fit. */
  predicate WellShaped(m: Model) {
    var d := m.dims;
    && DimsFit(d) && ConfigFits(ConfigOf(m)) && m.numParams < Limit(8) && m.act < 256 && m.theta < WORD
    && d.medusa == 0 && d.tied == m.unembed.None?
    && MatrixHas(m.embed, d.hidden, d.vocab)
    && (m.unembed.Some? ==> MatrixHas(m.unembed.value, d.hidden, d.vocab) && EmbedType(m.unembed.value) == EmbedType(m.embed))
    && FloatsHas(m.rmsAttn, d.hidden) && FloatsHas(m.rmsFfn, d.hidden) && FloatsHas(m.rmsFinal, d.hidden)
    && (m.inner.Some? ==> FloatsHas(m.inner.value, d.hidden))
    && (m.ffnNorm.Some? ==> FloatsHas(m.ffnNorm.value, d.intermediate))
    && TernHas(m.q, d.qDim, d.hidden) && TernHas(m.k, Area(d.kvHeads, m.headDim), d.hidden)
    && TernHas(m.v, Area(d.kvHeads, m.headDim), d.hidden) && TernHas(m.o, d.hidden, d.qDim)
    && (forall i :: 0 <= i < |m.experts| ==> ExpertHas(m.experts[i], d))
    && RoutingHas(m.routing, d, |m.experts|)
    && (forall i :: 0 <= i < |m.masks| ==> |m.masks[i]| < HALF)
    && TernHas(m.stepEmb, m.steps, d.hidden) && FloatsHas(m.haltParams, 2)
    && (forall i :: 0 <= i < |m.lora| ==> FactorsFit(m.lora[i]))
  }

  // ----- the reader's plan fits the writer's records -------------------------------------------------------

  lemma {:induction false} ExpertsGood(es: seq<Expert>, d: Dims, n: nat)
    requires n <= |es| && forall i :: 0 <= i < |es| ==> ExpertHas(es[i], d)
    ensures Good(ExpertSections(es, n), ExpertShapes(d, n))
  {
    if n > 0 {
      ExpertsGood(es, d, n - 1);
      assert ExpertHas(es[n - 1], d);
    }
  }

  lemma {:induction false} MasksGood(masks: seq<seq<trit>>, n: nat)
    requires n <= |masks| && forall i :: 0 <= i < |masks| ==> |masks[i]| < HALF
    ensures Good(MaskSections(masks, n), MaskShapes(n))
  {
    if n > 0 {
      MasksGood(masks, n - 1);
    }
  }

  lemma {:induction false} FrontGood(m: Model)
    requires WellShaped(m)
    ensures Good(FrontSections(m), FrontShapes(m.dims, EmbedType(m.embed)))
    ensures Good(ProjSections(m), ProjShapes(m.dims, m.headDim))
  {
  }

  lemma {:induction false} RoutingGood(m: Model)
    requires WellShaped(m)
    ensures Good(RoutingSections(m.routing), RoutingShapes(m.dims, |m.experts|))
  {
  }

  lemma {:induction false} LastGood(m: Model)
    requires WellShaped(m)
    ensures Good(LastSections(m), StepShapes(m.dims, m.steps) + EndShapes(m.dims, EmbedType(m.embed)) +
                                  [FloatsOf(Plain("theta"), 1)])
  {
  }

  lemma {:induction false} OptGood(name: string, xs: Option<seq<nat>>, n: nat)
    requires xs.Some? ==> FloatsHas(xs.value, n)
    ensures Good(OptFloats(name, xs), When(xs.Some?, [FloatsOf(Plain(name), n)]))
  {
  }

  lemma {:induction false} FlagBits(m: Model)
    ensures var f := Bits(Flags(m)); f < 256 && forall i :: 0 <= i < 8 ==> Bit(f, i) == Flags(m)[i]
  {
    BitsSmall(Flags(m));
    forall i | 0 <= i < 8 ensures Bit(Bits(Flags(m)), i) == Flags(m)[i] {
      BitOfBits(Flags(m), i);
    }
  }

  function PlanOf(m: Model): seq<Shape> {
    Plan(m.dims, EmbedType(m.embed), Bits(Flags(m)), ConfigOf(m))
  }

  /** What the reader asks for before the steps, with the writer's own flags put in. */
  function EarlyShapes(m: Model): seq<Shape> {
    FrontShapes(m.dims, EmbedType(m.embed)) + When(m.inner.Some?, [FloatsOf(Plain("rms_inner"), m.dims.hidden)]) +
    When(m.ffnNorm.Some?, [FloatsOf(Plain("rms_ffn_norm"), m.dims.intermediate)]) +
    ProjShapes(m.dims, m.headDim) + When(m.experts != [], ExpertShapes(m.dims, |m.experts|)) +
    RoutingShapes(m.dims, |m.experts|) + When(m.masks != [], MaskShapes(|m.masks|))
  }

  lemma {:induction false} FlagFacts(m: Model)
    ensures var f := Bits(Flags(m));
            && Bit(f, 0) == m.inner.Some? && Bit(f, 1) == m.ffnNorm.Some? && Bit(f, 2) && Bit(f, 4) == (m.experts != [])
            && Bit(f, 5) && Bit(f, 6) == (m.masks != []) && Bit(f, 7)
  {
    FlagBits(m);
  }

  /** The plan with the writer's own flags put in. */
  lemma {:induction false} PlanParts(m: Model)
    ensures PlanOf(m) ==
            EarlyShapes(m) +
            (StepShapes(m.dims, m.steps) + EndShapes(m.dims, EmbedType(m.embed)) + [FloatsOf(Plain("theta"), 1)]) +
            When(m.lora != [], [LoraOf(Plain("lora"), |m.lora|)])
  {
    FlagFacts(m);
    var s, e, t := StepShapes(m.dims, m.steps), EndShapes(m.dims, EmbedType(m.embed)), [FloatsOf(Plain("theta"), 1)];
    Assoc(EarlyShapes(m), s, e);
    Assoc(EarlyShapes(m), s + e, t);
  }

  lemma {:induction false} OptionalGood(m: Model)
    requires WellShaped(m)
    ensures Good(ExpertSections(m.experts, |m.experts|), When(m.experts != [], ExpertShapes(m.dims, |m.experts|)))
    ensures Good(MaskSections(m.masks, |m.masks|), When(m.masks != [], MaskShapes(|m.masks|)))
    ensures Good(LoraSections(m.lora), When(m.lora != [], [LoraOf(Plain("lora"), |m.lora|)]))
  {
    ExpertsGood(m.experts, m.dims, |m.experts|);
    MasksGood(m.masks, |m.masks|);
  }

  lemma {:induction false} NineGood(a: seq<Section>, b: seq<Section>, c: seq<Section>, d: seq<Section>, e: seq<Section>,
                                    f: seq<Section>, g: seq<Section>, h: seq<Section>, i: seq<Section>,
                                    a': seq<Shape>, b': seq<Shape>, c': seq<Shape>, d': seq<Shape>, e': seq<Shape>,
                                    f': seq<Shape>, g': seq<Shape>, h': seq<Shape>, i': seq<Shape>)
    requires Good(a, a') && Good(b, b') && Good(c, c') && Good(d, d') && Good(e, e') && Good(f, f')
    requires Good(g, g') && Good(h, h') && Good(i, i')
    ensures Good(a + b + c + d + e + f + g + h + i, a' + b' + c' + d' + e' + f' + g' + h' + i')
  {
    GoodAppend(a, a', b, b');
    GoodAppend(a + b, a' + b', c, c');
    GoodAppend(a + b + c, a' + b' + c', d, d');
    GoodAppend(a + b + c + d, a' + b' + c' + d', e, e');
    GoodAppend(a + b + c + d + e, a' + b' + c' + d' + e', f, f');
    GoodAppend(a + b + c + d + e + f, a' + b' + c' + d' + e' + f', g, g');
    GoodAppend(a + b + c + d + e + f + g, a' + b' + c' + d' + e' + f' + g', h, h');
    GoodAppend(a + b + c + d + e + f + g + h, a' + b' + c' + d' + e' + f' + g' + h', i, i');
  }

  /** For every shape and every combination of optional parts, the shapes the reader derives from header and
      config are those of the records the writer wrote, in order. */
  lemma {:induction false} PlanFits(m: Model)
    requires WellShaped(m)
    ensures Good(SectionsOf(m), PlanOf(m))
  {
    FrontGood(m);
    RoutingGood(m);
    LastGood(m);
    OptGood("rms_inner", m.inner, m.dims.hidden);
    OptGood("rms_ffn_norm", m.ffnNorm, m.dims.intermediate);
    OptionalGood(m);
    PlanParts(m);
    NineGood(FrontSections(m), OptFloats("rms_inner", m.inner), OptFloats("rms_ffn_norm", m.ffnNorm), ProjSections(m),
             ExpertSections(m.experts, |m.experts|), RoutingSections(m.routing), MaskSections(m.masks, |m.masks|),
             LastSections(m), LoraSections(m.lora),
             FrontShapes(m.dims, EmbedType(m.embed)), When(m.inner.Some?, [FloatsOf(Plain("rms_inner"), m.dims.hidden)]),
             When(m.ffnNorm.Some?, [FloatsOf(Plain("rms_ffn_norm"), m.dims.intermediate)]),
             ProjShapes(m.dims, m.headDim), When(m.experts != [], ExpertShapes(m.dims, |m.experts|)),
             RoutingShapes(m.dims, |m.experts|), When(m.masks != [], MaskShapes(|m.masks|)),
             StepShapes(m.dims, m.steps) + EndShapes(m.dims, EmbedType(m.embed)) + [FloatsOf(Plain("theta"), 1)],
             When(m.lora != [], [LoraOf(Plain("lora"), |m.lora|)]));
  }

  // ----- files -----------------------------------------------------------------------------------------------

  function FileBytes(m: Model): bytes {
    HeadBytes(m) + BodyBytes(SectionsOf(m))
  }

  datatype Container = Container(numParams: nat, dims: Dims, act: nat, embedType: nat, feat: nat, config: Config,
                                 sections: seq<Section>)

  function ReadConfig(v: View): Config {
    Config(NumOr(v, 52, 2), NumOr(v, 54, 2), NumOr(v, 56, 2), NumOr(v, 58, 2), NumOr(v, 60, 2), NumOr(v, 62, 2),
           NumOr(v, 64, 2), NumOr(v, 68, 4))
  }

  function HeaderError(v: View, size: nat): Option<string> {
    if size < BODY_OFFSET then Some("file too small to be a .bfz container")
    else if v.num(0, 4) != Ok(MAGIC) then Some("bad magic")
    else if v.num(4, 2) != Ok(6) then Some("bad version")
    else if v.num(14, 1) != Ok(3) then Some("not the BitFuzzy container")
    else None
  }

  /** What the reader makes of the header once it has accepted it. */
  function HeaderPart(v: View): Container {
    Container(NumOr(v, 6, 8), ReadDims(v), NumOr(v, 49, 1), NumOr(v, 50, 1), NumOr(v, 51, 1), ReadConfig(v), [])
  }

  function Finish(h: Container, size: nat, body: Result<(seq<Section>, nat)>): Result<Container> {
    match body
    case Err(e) => Err(e)
    case Ok(ss) => if ss.1 == size then Ok(h.(sections := ss.0)) else Err("container has trailing bytes")
  }

  function BlockPlan(h: Container): seq<Shape> {
    BlockShapes(h.dims, h.embedType, h.feat, h.config)
  }

  function PlanIn(h: Container): seq<Shape> {
    Plan(h.dims, h.embedType, h.feat, h.config)
  }

  /** The reader, given how it sees the file and how it reads one record. */
  function ReadFile(v: View, read: ShapeReader, size: nat): Result<Container> {
    var e := HeaderError(v, size);
    if e.Some? then Err(e.value)
    else
      var h := HeaderPart(v);
      Finish(h, size, ReadShapes(read, BODY_OFFSET, PlanIn(h), |PlanIn(h)|))
  }

  function ReadBfz(data: bytes): Result<Container> {
    ReadFile(ViewOf(data), Reading(ViewOf(data)), |data|)
  }

  // ----- the round trip ------------------------------------------------------------------------------------

  ghost predicate TailReads(v: View, act: nat, embedType: nat, feat: nat) {
    v.num(49, 1) == Ok(act) && v.num(50, 1) == Ok(embedType) && v.num(51, 1) == Ok(feat)
  }

  lemma {:induction false} KindsBack(v: View, data: bytes, act: nat, embedType: nat, feat: nat)
    requires SeesNums(v, data) && act < 256 && embedType < 256 && feat < 256
    requires At(data, 44, TailBytes(act, embedType, feat))
    ensures TailReads(v, act, embedType, feat)
  {
    var r3 := LE(embedType, 1) + LE(feat, 1);
    var r2 := LE(act, 1) + r3;
    var r1 := LE(0, 4) + r2;
    Field(v, data, 44, 0, 1, r1);
    Field(v, data, 45, 0, 4, r2);
    Field(v, data, 49, act, 1, r3);
    Field(v, data, 50, embedType, 1, LE(feat, 1));
    SeeNum(v, data, 51, feat, 1);
  }

  lemma {:induction false} ConfigBack(v: View, data: bytes, c: Config)
    requires SeesNums(v, data) && ConfigFits(c) && At(data, 52, ConfigBytes(c))
    ensures ReadConfig(v) == c
  {
    var r8 := LE(c.eps, 4);
    var r7 := LE(0, 2) + r8;
    var r6 := LE(c.lora, 2) + r7;
    var r5 := LE(c.masks, 2) + r6;
    var r4 := LE(c.halting, 2) + r5;
    var r3 := LE(c.headDim, 2) + r4;
    var r2 := LE(c.steps, 2) + r3;
    var r1 := LE(c.topK, 2) + r2;
    Field(v, data, 52, c.experts, 2, r1);
    Field(v, data, 54, c.topK, 2, r2);
    Field(v, data, 56, c.steps, 2, r3);
    Field(v, data, 58, c.headDim, 2, r4);
    Field(v, data, 60, c.halting, 2, r5);
    Field(v, data, 62, c.masks, 2, r6);
    Field(v, data, 64, c.lora, 2, r7);
    Field(v, data, 66, 0, 2, r8);
    SeeNum(v, data, 68, c.eps, 4);
  }

  function HeaderOf(m: Model): Container {
    Container(m.numParams, m.dims, m.act, EmbedType(m.embed), Bits(Flags(m)), ConfigOf(m), [])
  }

  lemma {:induction false} HeadPlaces(data: bytes, m: Model)
    requires At(data, 0, HeadBytes(m))
    ensures At(data, 0, Preamble(6, m.numParams, 3)) && At(data, 18, DimBytes(m.dims))
    ensures At(data, 44, TailBytes(m.act, EmbedType(m.embed), Bits(Flags(m)))) && At(data, 52, ConfigBytes(ConfigOf(m)))
  {
    var t, c := TailBytes(m.act, EmbedType(m.embed), Bits(Flags(m))), ConfigBytes(ConfigOf(m));
    HeadSplit(data, Preamble(6, m.numParams, 3), DimBytes(m.dims), t + c);
    AtSplit(data, 44, t, c);
  }

  lemma {:induction false} HeaderBack(v: View, data: bytes, m: Model)
    requires SeesNums(v, data) && WellShaped(m) && At(data, 0, HeadBytes(m)) && |data| >= BODY_OFFSET
    ensures HeaderError(v, |data|).None? && HeaderPart(v) == HeaderOf(m)
  {
    FlagBits(m);
    HeadPlaces(data, m);
    PreambleBack(v, data, 6, m.numParams, 3);
    DimsBack(v, data, m.dims);
    KindsBack(v, data, m.act, EmbedType(m.embed), Bits(Flags(m)));
    ConfigBack(v, data, ConfigOf(m));
  }

  lemma {:induction false} FileReads(v: View, read: ShapeReader, size: nat, h: Container, plan: seq<Shape>,
                                     ss: seq<Section>, end: nat)
    requires HeaderError(v, size).None? && HeaderPart(v) == h && PlanIn(h) == plan
    requires ReadShapes(read, BODY_OFFSET, plan, |plan|) == Ok((ss, end))
    ensures ReadFile(v, read, size) ==
            if end == size then Ok(h.(sections := ss)) else Err("container has trailing bytes")
  {
  }

  lemma {:induction false} StillAt(a: bytes, b: bytes, o: nat, x: bytes)
    requires At(a, o, x)
    ensures At(a + b, o, x)
  {
    AtSlice(a, o, x);
    AtSlice(a + b, o, x);
    assert (a + b)[o..o + |x|] == a[o..o + |x|];
  }

  lemma {:induction false} FilePlaces(head: bytes, body: bytes, more: bytes)
    ensures At(head + body + more, 0, head) && At(head + body + more, |head|, body)
  {
    HeadAndBody(head, body);
    StillAt(head + body, more, 0, head);
    StillAt(head + body, more, |head|, body);
  }

  lemma {:induction false} HeaderOfFile(m: Model, data: bytes, more: bytes)
    requires WellShaped(m) && data == FileBytes(m) + more
    ensures |data| == BODY_OFFSET + |BodyBytes(SectionsOf(m))| + |more|
    ensures At(data, BODY_OFFSET, BodyBytes(SectionsOf(m)))
    ensures HeaderError(ViewOf(data), |data|).None? && HeaderPart(ViewOf(data)) == HeaderOf(m)
  {
    FilePlaces(HeadBytes(m), BodyBytes(SectionsOf(m)), more);
    ViewSees(data);
    HeaderBack(ViewOf(data), data, m);
  }

  /** An exported file is read back, and only as it is: any byte appended to it makes the reader refuse it. */
  lemma {:induction false} ReadExtended(m: Model, data: bytes, more: bytes)
    requires WellShaped(m) && data == FileBytes(m) + more
    ensures ReadBfz(data) ==
            if more == [] then Ok(HeaderOf(m).(sections := SectionsOf(m))) else Err("container has trailing bytes")
  {
    var end := |FileBytes(m)|;
    HeaderOfFile(m, data, more);
    PlanFits(m);
    ViewSees(data);
    SectionsBack(ViewOf(data), data, BODY_OFFSET, SectionsOf(m), PlanOf(m), end);
    FileReads(ViewOf(data), Reading(ViewOf(data)), |data|, HeaderOf(m), PlanOf(m), SectionsOf(m), end);
  }

  lemma {:induction false} AppendNothing(b: bytes)
    ensures b == b + []
  {
  }

  /** Reading inverts exporting: every header and config field, trit, scale, f32 and i16 comes back, and the
      cursor ends exactly at the end of the file. */
  lemma {:induction false} ReadInvertsExport(m: Model)
    requires WellShaped(m)
    ensures ReadBfz(FileBytes(m)) == Ok(HeaderOf(m).(sections := SectionsOf(m)))
  {
    AppendNothing(FileBytes(m));
    ReadExtended(m, FileBytes(m), []);
  }

  // ----- the section table ---------------------------------------------------------------------------------

  /** One entry of the section table; `scaleAt` is where the scales of a matrix record start. */
  datatype Record = Record(name: Name, offset: nat, length: nat, scaleAt: Option<nat>, scaleLength: nat)

  /** A record's name and, for matrix records, how many bytes of scales end it. */
  datatype Tag = Tag(name: Name, scaled: bool, scaleLength: nat)

  function TagOf(s: Section): Tag {
    match s
    case Ternary(name, _, scales) => Tag(name, true, 4 * |scales|)
    case Q6k(name, _, _) => Tag(name, true, 4)
    case Exact(name, _, _) => Tag(name, true, 4)
    case Floats(name, _) => Tag(name, false, 0)
    case Shorts(name, _) => Tag(name, false, 0)
    case Mask(name, _) => Tag(name, false, 0)
    case Tied(name) => Tag(name, false, 0)
    case Lora(name, _) => Tag(name, false, 0)
  }

  function TagsOf(ss: seq<Section>): (ts: seq<Tag>)
    ensures |ts| == |ss|
  {
    seq(|ss|, i requires 0 <= i < |ss| => TagOf(ss[i]))
  }

  /** The scales of a matrix record. */
  function ScaleBytes(s: Section): bytes {
    match s
    case Ternary(_, _, scales) => F32s(scales)
    case Q6k(_, _, scale) => LE(scale, 4)
    case Exact(_, _, scale) => LE(scale, 4)
    case Floats(_, _) => []
    case Shorts(_, _) => []
    case Mask(_, _) => []
    case Tied(_) => []
    case Lora(_, _) => []
  }

  lemma {:induction false} ScaleIsLast(s: Section)
    ensures var n := TagOf(s).scaleLength; n <= |Bytes(s)| && Bytes(s)[|Bytes(s)| - n..] == ScaleBytes(s)
  {
  }

  function RecordOf(t: Tag, part: bytes, offset: nat): Record {
    var len := |part|;
    if t.scaled && t.scaleLength <= len then
      Record(t.name, offset, len, Some(offset + (len - t.scaleLength)), t.scaleLength)
    else Record(t.name, offset, len, None, 0)
  }

  /** The table of the first `k` records. */
  function RecordsOf(ts: seq<Tag>, parts: seq<bytes>, k: nat): (rs: seq<Record>)
    requires k <= |parts| == |ts|
    ensures |rs| == k
  {
    if k == 0 then [] else RecordsOf(ts, parts, k - 1) + [RecordOf(ts[k - 1], parts[k - 1], |Join(parts, k - 1)|)]
  }

  function Table(ss: seq<Section>): seq<Record> {
    RecordsOf(TagsOf(ss), AllBytes(ss), |ss|)
  }

  lemma {:induction false} RecordsPrefix(ts: seq<Tag>, parts: seq<bytes>, t: Tag, x: bytes, k: nat)
    requires k <= |parts| == |ts|
    ensures RecordsOf(ts + [t], parts + [x], k) == RecordsOf(ts, parts, k)
  {
    if k > 0 {
      RecordsPrefix(ts, parts, t, x, k - 1);
      JoinOfPrefix(parts, [x], k - 1);
    }
  }

  lemma {:induction false} RecordsOneMore(ts: seq<Tag>, parts: seq<bytes>, t: Tag, x: bytes)
    requires |parts| == |ts|
    ensures RecordsOf(ts + [t], parts + [x], |ts| + 1) ==
            RecordsOf(ts, parts, |ts|) + [RecordOf(t, x, |Join(parts, |parts|)|)]
    ensures Join(parts + [x], |parts| + 1) == Join(parts, |parts|) + x
  {
    RecordsPrefix(ts, parts, t, x, |ts|);
    JoinOfPrefix(parts, [x], |parts|);
  }

  lemma {:induction false} TableGrows(ss: seq<Section>, s: Section)
    ensures Table(ss + [s]) == Table(ss) + [RecordOf(TagOf(s), Bytes(s), |BodyBytes(ss)|)]
  {
    assert AllBytes(ss + [s]) == AllBytes(ss) + [Bytes(s)];
    assert TagsOf(ss + [s]) == TagsOf(ss) + [TagOf(s)];
    RecordsOneMore(TagsOf(ss), AllBytes(ss), TagOf(s), Bytes(s));
  }

  // ----- the body writer -----------------------------------------------------------------------------------

  /** The body grows by whole records; a table entry for each says where its bytes and its scales lie. */
  class Body {
    var buf: bytes
    var records: seq<Record>
    ghost var done: seq<Section>

    ghost predicate Valid()
      reads this
    {
      forall k: nat :: Peek(k) ==> buf == BodyBytes(done) && records == Table(done)
    }

    constructor ()
      ensures Valid() && done == []
    {
      buf, records, done := [], [], [];
    }

    method Add(s: Section)
      requires Valid()
      modifies this
      ensures Valid() && done == old(done) + [s]
    {
      assert Peek(0);
      var payload := Bytes(s);
      BodyOneMore(done, s);
      TableGrows(done, s);
      records := records + [RecordOf(TagOf(s), payload, |buf|)];
      buf := buf + payload;
      done := done + [s];
    }

    method AddAll(ss: seq<Section>)
      requires Valid()
      modifies this
      ensures Valid() && done == old(done) + ss
    {
      ghost var before := done;
      var i := 0;
      while i < |ss|
        invariant 0 <= i <= |ss|
        invariant Valid() && done == before + ss[..i]
      {
        assert ss[..i + 1] == ss[..i] + [ss[i]];
        Assoc(before, ss[..i], [ss[i]]);
        Add(ss[i]);
        i := i + 1;
      }
      assert ss[..i] == ss;
    }

    method AddExperts(es: seq<Expert>)
      requires Valid()
      modifies this
      ensures Valid() && done == old(done) + ExpertSections(es, |es|)
    {
      ghost var before := done;
      var e := 0;
      while e < |es|
        invariant 0 <= e <= |es|
        invariant Valid() && done == before + ExpertSections(es, e)
      {
        var three := [TernSection(Name.Expert(e, "gate"), es[e].gate), TernSection(Name.Expert(e, "up"), es[e].up),
                      TernSection(Name.Expert(e, "down"), es[e].down)];
        Assoc(before, ExpertSections(es, e), three);
        AddAll(three);
        e := e + 1;
      }
    }

    method AddMasks(masks: seq<seq<trit>>)
      requires Valid()
      modifies this
      ensures Valid() && done == old(done) + MaskSections(masks, |masks|)
    {
      ghost var before := done;
      var i := 0;
      while i < |masks|
        invariant 0 <= i <= |masks|
        invariant Valid() && done == before + MaskSections(masks, i)
      {
        Assoc(before, MaskSections(masks, i), [Mask(MaskNo(i), masks[i])]);
        Add(Mask(MaskNo(i), masks[i]));
        i := i + 1;
      }
    }

    method AddFloats(name: string, xs: Option<seq<nat>>)
      requires Valid()
      modifies this
      ensures Valid() && done == old(done) + OptFloats(name, xs)
    {
      if xs.Some? {
        Add(Floats(Plain(name), xs.value));
      }
    }

    method AddLora(lora: seq<Factors>)
      requires Valid()
      modifies this
      ensures Valid() && done == old(done) + LoraSections(lora)
    {
      if lora != [] {
        Add(Lora(Plain("lora"), lora));
      }
    }
  }

  method BuildBlock(m: Model) returns (body: Body)
    ensures body.Valid() && body.done == BlockSections(m) && fresh(body)
  {
    body := new Body();
    body.AddAll(FrontSections(m));
    assert [] + FrontSections(m) == FrontSections(m);
    body.AddFloats("rms_inner", m.inner);
    body.AddFloats("rms_ffn_norm", m.ffnNorm);
    body.AddAll(ProjSections(m));
    body.AddExperts(m.experts);
  }

  /** The writer: records in the order of the format, optional ones only when the model has them. */
  method BuildBody(m: Model) returns (body: Body)
    ensures body.Valid() && body.done == SectionsOf(m) && fresh(body)
  {
    body := BuildBlock(m);
    body.AddAll(RoutingSections(m.routing));
    body.AddMasks(m.masks);
    body.AddAll(LastSections(m));
    body.AddLora(m.lora);
  }

  method ExportBfz(m: Model) returns (file: bytes, table: seq<Record>)
    ensures file == FileBytes(m) && table == Table(SectionsOf(m))
  {
    var body := BuildBody(m);
    assert Peek(0);
    file, table := HeadBytes(m) + body.buf, body.records;
  }

  // ----- the section table tiles the file ----------------------------------------------------------------

  /** The first `k` entries cover the bytes from `from` to `to` end to end, without gap or overlap. */
  predicate Tiled(rs: seq<Record>, k: nat, from: nat, to: nat)
    requires k <= |rs|
  {
    if k == 0 then from == to
    else rs[k - 1].offset + rs[k - 1].length == to && Tiled(rs, k - 1, from, rs[k - 1].offset)
  }

  lemma {:induction false} TiledPrefix(rs: seq<Record>, r: Record, k: nat, from: nat, to: nat)
    requires k <= |rs|
    ensures Tiled(rs + [r], k, from, to) == Tiled(rs, k, from, to)
  {
    if k > 0 {
      TiledPrefix(rs, r, k - 1, from, rs[k - 1].offset);
    }
  }

  function Shifted(r: Record, d: nat): Record {
    Record(r.name, r.offset + d, r.length, if r.scaleAt.Some? then Some(r.scaleAt.value + d) else None, r.scaleLength)
  }

  /** The table of the whole file: header, config, then the body records moved behind them. */
  function FileTable(rs: seq<Record>, k: nat): (t: seq<Record>)
    requires k <= |rs|
    ensures |t| == k + 2
  {
    if k == 0 then [Record(Plain("header"), 0, 52, None, 0), Record(Plain("config"), 52, 20, None, 0)]
    else FileTable(rs, k - 1) + [Shifted(rs[k - 1], BODY_OFFSET)]
  }

  lemma {:induction false} FileTablePrefix(rs: seq<Record>, r: Record, k: nat)
    requires k <= |rs|
    ensures FileTable(rs + [r], k) == FileTable(rs, k)
  {
    if k > 0 {
      FileTablePrefix(rs, r, k - 1);
    }
  }

  lemma {:induction false} TableOneMore(ts: seq<Tag>, parts: seq<bytes>, k: nat)
    requires 0 < k <= |parts| == |ts|
    ensures FileTable(RecordsOf(ts, parts, k), k) ==
            FileTable(RecordsOf(ts, parts, k - 1), k - 1) +
            [Shifted(RecordOf(ts[k - 1], parts[k - 1], |Join(parts, k - 1)|), BODY_OFFSET)]
  {
    FileTablePrefix(RecordsOf(ts, parts, k - 1), RecordOf(ts[k - 1], parts[k - 1], |Join(parts, k - 1)|), k - 1);
  }

  lemma {:induction false} TableTiles(ts: seq<Tag>, parts: seq<bytes>, k: nat)
    requires k <= |parts| == |ts|
    ensures Tiled(FileTable(RecordsOf(ts, parts, k), k), k + 2, 0, BODY_OFFSET + |Join(parts, k)|)
  {
    if k == 0 {
      var t := FileTable([], 0);
      assert Tiled(t, 0, 0, 0) && Tiled(t, 1, 0, 52) && Tiled(t, 2, 0, 72);
    } else {
      TableTiles(ts, parts, k - 1);
      TableOneMore(ts, parts, k);
      var start := BODY_OFFSET + |Join(parts, k - 1)|;
      TiledPrefix(FileTable(RecordsOf(ts, parts, k - 1), k - 1),
                  Shifted(RecordOf(ts[k - 1], parts[k - 1], |Join(parts, k - 1)|), BODY_OFFSET), k + 1, 0, start);
    }
  }

  /** The writer's table covers the file it wrote, byte for byte. */
  lemma {:induction false} SectionsTileFile(m: Model)
    ensures var t := Table(SectionsOf(m)); Tiled(FileTable(t, |t|), |t| + 2, 0, |FileBytes(m)|)
  {
    var ss := SectionsOf(m);
    TableTiles(TagsOf(ss), AllBytes(ss), |ss|);
  }

  lemma {:induction false} PartAt(parts: seq<bytes>, n: nat, i: nat)
    requires i < n <= |parts|
    ensures At(Join(parts, n), |Join(parts, i)|, parts[i])
    decreases n
  {
    HeadAndBody(Join(parts, n - 1), parts[n - 1]);
    if i < n - 1 {
      PartAt(parts, n - 1, i);
      StillAt(Join(parts, n - 1), parts[n - 1], |Join(parts, i)|, parts[i]);
    }
  }

  lemma {:induction false} RecordAt(ts: seq<Tag>, parts: seq<bytes>, k: nat, i: nat)
    requires i < k <= |parts| == |ts|
    ensures RecordsOf(ts, parts, k)[i] == RecordOf(ts[i], parts[i], |Join(parts, i)|)
    decreases k
  {
    if i < k - 1 {
      RecordAt(ts, parts, k - 1, i);
    }
  }

  lemma {:induction false} SuffixAt(data: bytes, o: nat, x: bytes, n: nat)
    requires At(data, o, x) && n <= |x|
    ensures At(data, o + (|x| - n), x[|x| - n..])
  {
    assert x == x[..|x| - n] + x[|x| - n..];
    AtSplit(data, o, x[..|x| - n], x[|x| - n..]);
  }

  lemma {:induction false} RecordPoints(ts: seq<Tag>, parts: seq<bytes>, i: nat)
    requires i < |parts| == |ts| && ts[i].scaleLength <= |parts[i]|
    ensures var r, part, n := RecordsOf(ts, parts, |parts|)[i], parts[i], ts[i].scaleLength;
            && r.name == ts[i].name && r.length == |part| && At(Join(parts, |parts|), r.offset, part)
            && (ts[i].scaled ==> r.scaleAt.Some? && r.scaleLength == n)
            && (ts[i].scaled ==> At(Join(parts, |parts|), r.scaleAt.value, part[|part| - n..]))
  {
    RecordAt(ts, parts, |parts|, i);
    PartAt(parts, |parts|, i);
    SuffixAt(Join(parts, |parts|), |Join(parts, i)|, parts[i], ts[i].scaleLength);
  }

  /** Each entry points at its record, and its scale offset at the scales. */
  lemma {:induction false} TablePointsAtRecords(ss: seq<Section>, i: nat)
    requires i < |ss|
    ensures var r := Table(ss)[i];
            && r.name == TagOf(ss[i]).name && r.length == |Bytes(ss[i])| && At(BodyBytes(ss), r.offset, Bytes(ss[i]))
            && (TagOf(ss[i]).scaled ==> r.scaleAt.Some? && At(BodyBytes(ss), r.scaleAt.value, ScaleBytes(ss[i])))
  {
    ScaleIsLast(ss[i]);
    RecordPoints(TagsOf(ss), AllBytes(ss), i);
  }

  // ----- the reader ------------------------------------------------------------------------------------------

  method TakeExperts(cur: Cursor, d: Dims, n: nat)
    requires cur.Valid()
    modifies cur
    ensures cur.Valid() && cur.asked == old(cur.asked) + ExpertShapes(d, n)
  {
    ghost var before := cur.asked;
    var e := 0;
    while e < n
      invariant 0 <= e <= n
      invariant cur.Valid() && cur.asked == before + ExpertShapes(d, e)
    {
      var three := [TernShape(Name.Expert(e, "gate"), d.intermediate, d.hidden),
                    TernShape(Name.Expert(e, "up"), d.intermediate, d.hidden),
                    TernShape(Name.Expert(e, "down"), d.hidden, d.intermediate)];
      Assoc(before, ExpertShapes(d, e), three);
      cur.TakeAll(three);
      e := e + 1;
    }
  }

  method TakeMasks(cur: Cursor, n: nat)
    requires cur.Valid()
    modifies cur
    ensures cur.Valid() && cur.asked == old(cur.asked) + MaskShapes(n)
  {
    ghost var before := cur.asked;
    var i := 0;
    while i < n
      invariant 0 <= i <= n
      invariant cur.Valid() && cur.asked == before + MaskShapes(i)
    {
      Assoc(before, MaskShapes(i), [MaskOf(MaskNo(i))]);
      cur.Take(MaskOf(MaskNo(i)));
      i := i + 1;
    }
  }

  method TakeBlock(cur: Cursor, h: Container)
    requires cur.Valid() && cur.asked == []
    modifies cur
    ensures cur.Valid() && cur.asked == BlockPlan(h)
  {
    var d, c := h.dims, h.config;
    cur.TakeAll(FrontShapes(d, h.embedType));
    assert [] + FrontShapes(d, h.embedType) == FrontShapes(d, h.embedType);
    cur.TakeWhen(Bit(h.feat, 0), [FloatsOf(Plain("rms_inner"), d.hidden)]);
    cur.TakeWhen(Bit(h.feat, 1), [FloatsOf(Plain("rms_ffn_norm"), d.intermediate)]);
    cur.TakeAll(ProjShapes(d, c.headDim));
    if Bit(h.feat, 4) {
      TakeExperts(cur, d, c.experts);
    }
  }

  method TakeMiddle(cur: Cursor, h: Container)
    requires cur.Valid()
    modifies cur
    ensures cur.Valid()
    ensures cur.asked == old(cur.asked) + When(Bit(h.feat, 5), RoutingShapes(h.dims, h.config.experts)) +
                         When(Bit(h.feat, 6), MaskShapes(h.config.masks))
  {
    cur.TakeWhen(Bit(h.feat, 5), RoutingShapes(h.dims, h.config.experts));
    if Bit(h.feat, 6) {
      TakeMasks(cur, h.config.masks);
    }
  }

  method TakeBody(cur: Cursor, h: Container)
    requires cur.Valid() && cur.asked == []
    modifies cur
    ensures cur.Valid() && cur.asked == PlanIn(h)
  {
    var d, c := h.dims, h.config;
    TakeBlock(cur, h);
    TakeMiddle(cur, h);
    cur.TakeWhen(Bit(h.feat, 7), StepShapes(d, c.steps));
    cur.TakeAll(EndShapes(d, h.embedType));
    cur.TakeWhen(Bit(h.feat, 2), [FloatsOf(Plain("theta"), 1)]);
    cur.TakeWhen(c.lora != 0, [LoraOf(Plain("lora"), c.lora)]);
  }

  method ReadContainer(data: bytes) returns (r: Result<Container>)
    ensures r == ReadBfz(data)
  {
    var v := ViewOf(data);
    var e := HeaderError(v, |data|);
    if e.Some? {
      return Err(e.value);
    }
    var h := HeaderPart(v);
    var cursor := new Cursor(Reading(v), BODY_OFFSET);
    TakeBody(cursor, h);
    assert Peek(0);
    r := Finish(h, |data|, cursor.State());
  }
}
