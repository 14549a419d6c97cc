/** The BPB1/MRG1 vocabulary file: the exporter (tools/export_bpe_bin.py) and the loader `BPE.from_bpb1`
    (tools/chat_v6.py).

    UTF-8 is a pair of functions; all that is used of it is that decoding inverts encoding. Lists built
    by a loop are specified by the number of elements taken so far.
 */
module Bpb1 {
  import opened Basics
  import opened Wire
  import opened Bpe

  datatype Codec = Codec(enc: string -> bytes, dec: bytes -> Option<string>)

  ghost predicate Lawful(c: Codec) {
    forall s: string :: c.dec(c.enc(s)) == Some(s)
  }

  const MAX_PIECE := 65535

  /** The parts of tokenizer.json that are read, in file order. */
  datatype TokJson = TokJson(vocab: seq<(string, nat)>, added: seq<(string, nat)>, merges: seq<Pair>)

  // ----- the id table: a dictionary in insertion order ------------------------------------------------

  type Item = (string, nat)

  type Dict = seq<(nat, string)>

  function Put(d: Dict, k: nat, s: string): Dict {
    if d == [] then [(k, s)]
    else if d[0].0 == k then [(k, s)] + d[1..]
    else [d[0]] + Put(d[1..], k, s)
  }

  function Get(d: Dict, k: nat): Option<string> {
    if d == [] then None else if d[0].0 == k then Some(d[0].1) else Get(d[1..], k)
  }

  function GetOr(d: Dict, k: nat): string {
    match Get(d, k) case Some(s) => s case None => ""
  }

  lemma {:induction false} GetPut(d: Dict, k: nat, s: string, q: nat)
    ensures Get(Put(d, k, s), q) == if q == k then Some(s) else Get(d, q)
  {
    if d != [] {
      if d[0].0 == k {
        assert Put(d, k, s)[1..] == d[1..];
      } else {
        assert Put(d, k, s)[1..] == Put(d[1..], k, s);
        GetPut(d[1..], k, s, q);
      }
    }
  }

  /** Ids to contents of the first `n` items, later ones overriding earlier ones. */
  function Id2(items: seq<Item>, n: nat): Dict
    requires n <= |items|
  {
    if n == 0 then [] else Put(Id2(items, n - 1), items[n - 1].1, items[n - 1].0)
  }

  function Items(t: TokJson): seq<Item> {
    t.vocab + t.added
  }

  function Table(t: TokJson): Dict {
    Id2(Items(t), |Items(t)|)
  }

  lemma {:induction false} Id2Holds(items: seq<Item>, n: nat, k: nat)
    requires n <= |items|
    ensures Get(Id2(items, n), k).Some? ==> (Get(Id2(items, n), k).value, k) in items
    ensures Get(Id2(items, n), k).None? ==> forall i :: 0 <= i < n ==> items[i].1 != k
  {
    if n > 0 {
      Id2Holds(items, n - 1, k);
      GetPut(Id2(items, n - 1), items[n - 1].1, items[n - 1].0, k);
    }
  }

  /** One more than the largest id. */
  function VocabN(d: Dict): nat {
    if d == [] then 0 else
      var rest := VocabN(d[1..]);
      if d[0].0 + 1 > rest then d[0].0 + 1 else rest
  }

  lemma {:induction false} GetBelowN(d: Dict, k: nat)
    requires Get(d, k).Some?
    ensures k < VocabN(d)
  {
    if d[0].0 != k {
      GetBelowN(d[1..], k);
    }
  }

  method AddItems(d0: Dict, items: seq<Item>, start: nat, stop: nat) returns (d: Dict)
    requires start <= stop <= |items| && d0 == Id2(items, start)
    ensures d == Id2(items, stop)
  {
    d := d0;
    var i := start;
    while i < stop
      invariant start <= i <= stop
      invariant d == Id2(items, i)
    {
      d := Put(d, items[i].1, items[i].0);
      i := i + 1;
    }
  }

  method BuildId2(t: TokJson) returns (d: Dict)
    ensures d == Table(t)
  {
    var items := Items(t);
    d := AddItems([], items, 0, |t.vocab|);
    d := AddItems(d, items, |t.vocab|, |items|);
  }

  // ----- special ids -------------------------------------------------------------------------------------

  function FirstHolding(d: Dict, name: string): Option<nat> {
    if d == [] then None else if d[0].1 == name then Some(d[0].0) else FirstHolding(d[1..], name)
  }

  function FirstId(d: Dict, names: seq<string>, default: nat): nat {
    if names == [] then default
    else match FirstHolding(d, names[0])
      case Some(k) => k
      case None => FirstId(d, names[1..], default)
  }

  datatype Marks = Marks(bos: nat, eos: nat, eot: nat)

  function MarksOf(d: Dict, sp32: bool): Marks {
    if sp32 then
      var eos := FirstId(d, ["</s>"], 2);
      Marks(FirstId(d, ["<s>"], 1), eos, eos)
    else
      Marks(FirstId(d, ["<|begin_of_text|>", "<|startoftext|>"], 128000),
            FirstId(d, ["<|end_of_text|>", "<|endoftext|>"], 128001),
            FirstId(d, ["<|eot_id|>", "<|endoftext|>"], 128009))
  }

  // ----- file layout ---------------------------------------------------------------------------------------

  /** The contents of ids 0 to n - 1, blank for unused ones. */
  function Contents(d: Dict, n: nat): (texts: seq<string>)
    ensures |texts| == n
    ensures forall i :: 0 <= i < n ==> texts[i] == GetOr(d, i)
  {
    if n == 0 then [] else Contents(d, n - 1) + [GetOr(d, n - 1)]
  }

  function AllContents(d: Dict): seq<string> {
    Contents(d, VocabN(d))
  }

  function Clip(b: bytes): (r: bytes)
    ensures |r| <= MAX_PIECE
  {
    if |b| > MAX_PIECE then b[..MAX_PIECE] else b
  }

  function Pieces(c: Codec, texts: seq<string>): (p: seq<bytes>)
    ensures |p| == |texts|
  {
    seq(|texts|, i requires 0 <= i < |texts| => Clip(c.enc(texts[i])))
  }

  function Heap(pieces: seq<bytes>): bytes {
    Join(pieces, |pieces|)
  }

  /** Where the first `k` pieces start in the heap, and where they end. */
  function Offsets(pieces: seq<bytes>, k: nat): (o: seq<nat>)
    requires k <= |pieces|
    ensures |o| == k + 1
  {
    if k == 0 then [0] else Offsets(pieces, k - 1) + [|Join(pieces, k)|]
  }

  function MergeRecord(m: (bytes, bytes)): bytes {
    LE(|m.0|, 2) + m.0 + LE(|m.1|, 2) + m.1
  }

  function Records(ms: seq<(bytes, bytes)>): (rs: seq<bytes>)
    ensures |rs| == |ms|
  {
    seq(|ms|, i requires 0 <= i < |ms| => MergeRecord(ms[i]))
  }

  predicate Short(c: Codec, m: Pair) {
    |c.enc(m.0)| <= MAX_PIECE && |c.enc(m.1)| <= MAX_PIECE
  }

  /** The merges among the first `k` whose two sides fit their length prefixes. */
  function ShortMerges(c: Codec, merges: seq<Pair>, k: nat): seq<Pair>
    requires k <= |merges|
  {
    if k == 0 then []
    else if Short(c, merges[k - 1]) then ShortMerges(c, merges, k - 1) + [merges[k - 1]]
    else ShortMerges(c, merges, k - 1)
  }

  function Encoded(c: Codec, pairs: seq<Pair>): (ms: seq<(bytes, bytes)>)
    ensures |ms| == |pairs|
  {
    seq(|pairs|, i requires 0 <= i < |pairs| => (c.enc(pairs[i].0), c.enc(pairs[i].1)))
  }

  // The letters "BPB1" and "MRG1" as little-endian numbers.
  const BPB1 := 0x3142_5042
  const MRG1 := 0x3147_524D

  function Head(m: Marks, n: nat): (b: bytes)
    ensures |b| == 22
  {
    LE(BPB1, 4) + LE(1, 2) + LE(m.bos, 4) + LE(m.eos, 4) + LE(m.eot, 4) + LE(n, 4)
  }

  function Tail(ms: seq<(bytes, bytes)>): bytes {
    if ms == [] then [] else LE(MRG1, 4) + LE(|ms|, 4) + Join(Records(ms), |ms|)
  }

  function FileBytes(m: Marks, pieces: seq<bytes>, ms: seq<(bytes, bytes)>): bytes {
    Head(m, |pieces|) + Cells(Offsets(pieces, |pieces|), 4, |pieces| + 1) + Heap(pieces) + Tail(ms)
  }

  /** Every number written in four bytes fits them. */
  predicate Packs(m: Marks, pieces: seq<bytes>, ms: seq<(bytes, bytes)>) {
    && m.bos < WORD && m.eos < WORD && m.eot < WORD
    && |pieces| < WORD && |Heap(pieces)| < WORD && |ms| < WORD
  }

  function KeptMerges(c: Codec, t: TokJson): seq<Pair> {
    ShortMerges(c, t.merges, |t.merges|)
  }

  function Exported(c: Codec, t: TokJson, sp32: bool): Result<bytes> {
    var d := Table(t);
    if d == [] then Err("ValueError: max() of an empty vocabulary")
    else
      var m, pieces, ms := MarksOf(d, sp32), Pieces(c, AllContents(d)), Encoded(c, KeptMerges(c, t));
      if Packs(m, pieces, ms) then Ok(FileBytes(m, pieces, ms)) else Err("struct.error: number out of range")
  }

  // ----- the exporter's loops ---------------------------------------------------------------------------

  method LayOut(c: Codec, d: Dict, n: nat) returns (pieces: seq<bytes>, offsets: seq<nat>, off: nat)
    ensures pieces == Pieces(c, Contents(d, n)) && offsets == Offsets(pieces, n) && off == |Heap(pieces)|
  {
    ghost var all := Pieces(c, Contents(d, n));
    pieces, offsets, off := [], [], 0;
    var i := 0;
    while i < n
      invariant 0 <= i <= n
      invariant pieces == all[..i] && off == |Join(all, i)|
      invariant offsets + [off] == Offsets(all, i)
    {
      offsets := offsets + [off];
      var b := Clip(c.enc(GetOr(d, i)));
      pieces, off := pieces + [b], off + |b|;
      i := i + 1;
    }
    assert pieces == all;
    offsets := offsets + [off];
  }

  method KeepMerges(c: Codec, merges: seq<Pair>) returns (ms: seq<(bytes, bytes)>)
    ensures ms == Encoded(c, ShortMerges(c, merges, |merges|))
  {
    ms := [];
    var i := 0;
    while i < |merges|
      invariant 0 <= i <= |merges|
      invariant ms == Encoded(c, ShortMerges(c, merges, i))
    {
      var a, b := c.enc(merges[i].0), c.enc(merges[i].1);
      if !(|a| > MAX_PIECE || |b| > MAX_PIECE) {
        ms := ms + [(a, b)];
      }
      i := i + 1;
    }
  }

  method WriteOffsets(f0: bytes, offsets: seq<nat>) returns (f: bytes)
    ensures f == f0 + Cells(offsets, 4, |offsets|)
  {
    f := f0;
    var i := 0;
    while i < |offsets|
      invariant 0 <= i <= |offsets|
      invariant f == f0 + Cells(offsets, 4, i)
    {
      Assoc(f0, Cells(offsets, 4, i), LE(offsets[i], 4));
      f := f + LE(offsets[i], 4);
      i := i + 1;
    }
  }

  method WriteParts(f0: bytes, parts: seq<bytes>) returns (f: bytes)
    ensures f == f0 + Join(parts, |parts|)
  {
    f := f0;
    var i := 0;
    while i < |parts|
      invariant 0 <= i <= |parts|
      invariant f == f0 + Join(parts, i)
    {
      Assoc(f0, Join(parts, i), parts[i]);
      f := f + parts[i];
      i := i + 1;
    }
  }

  method WriteTail(f0: bytes, ms: seq<(bytes, bytes)>) returns (f: bytes)
    ensures f == f0 + Tail(ms)
  {
    if ms == [] {
      return f0;
    }
    var count, recs := LE(MRG1, 4) + LE(|ms|, 4), Records(ms);
    f := WriteParts(f0 + count, recs);
    Assoc(f0, count, Join(recs, |recs|));
  }

  method WriteFile(m: Marks, pieces: seq<bytes>, offsets: seq<nat>, ms: seq<(bytes, bytes)>) returns (f: bytes)
    requires offsets == Offsets(pieces, |pieces|)
    ensures f == FileBytes(m, pieces, ms)
  {
    f := WriteOffsets(Head(m, |pieces|), offsets);
    f := WriteParts(f, pieces);
    f := WriteTail(f, ms);
  }

  method Export(c: Codec, t: TokJson, sp32: bool) returns (r: Result<bytes>)
    ensures r == Exported(c, t, sp32)
  {
    var d := BuildId2(t);
    if d == [] {
      return Err("ValueError: max() of an empty vocabulary");
    }
    var m := MarksOf(d, sp32);
    var pieces, offsets, off := LayOut(c, d, VocabN(d));
    var ms := KeepMerges(c, t.merges);
    if Packs(m, pieces, ms) {
      var f := WriteFile(m, pieces, offsets, ms);
      r := Ok(f);
    } else {
      r := Err("struct.error: number out of range");
    }
  }

  // ----- the loader --------------------------------------------------------------------------------------

  /** A Python slice: clamped to the data. */
  function Slice(data: bytes, a: nat, b: nat): bytes {
    var hi := if b < |data| then b else |data|;
    if a <= hi then data[a..hi] else []
  }

  /** Content of an id: its heap slice, or nothing when the slice is out of order or not UTF-8. */
  function TextAt(c: Codec, heap: bytes, a: nat, b: nat): string {
    if a <= b <= |heap| then match c.dec(heap[a..b]) case Some(s) => s case None => "" else ""
  }

  /** One length-prefixed string and the offset behind it. */
  function ReadString(c: Codec, data: bytes, o: nat): Result<(string, nat)> {
    if o + 2 > |data| then Err("struct.error: length")
    else
      var len := NumAt(data, o, 2);
      match c.dec(Slice(data, o + 2, o + 2 + len))
      case None => Err("UnicodeDecodeError")
      case Some(s) => Ok((s, o + 2 + len))
  }

  function ReadMerge(c: Codec, data: bytes, o: nat): Result<(Pair, nat)> {
    match ReadString(c, data, o)
    case Err(e) => Err(e)
    case Ok(a) =>
      match ReadString(c, data, a.1)
      case Err(e) => Err(e)
      case Ok(b) => Ok(((a.0, b.0), b.1))
  }

  /** How the loader looks at a file: its size, the number in some bytes at an offset, the content between
      two offsets of a heap that lies between two offsets of the file, and the merge at an offset. */
  datatype View = View(size: nat, num: (nat, nat) -> nat, text: (nat, nat, nat, nat) -> string, merge: Reader<Pair>)

  function Num(data: bytes, o: nat, k: nat): nat {
    if o + k <= |data| then NumAt(data, o, k) else 0
  }

  function ViewOf(c: Codec, data: bytes): View {
    View(|data|, (o: nat, k: nat) => Num(data, o, k),
         (o: nat, end: nat, a: nat, b: nat) => TextAt(c, Slice(data, o, end), a, b),
         (o: nat) => ReadMerge(c, data, o))
  }

  function WordsAt(v: View, o: nat, k: nat): (ws: seq<nat>)
    ensures |ws| == k
  {
    if k == 0 then [] else WordsAt(v, o, k - 1) + [v.num(o + 4 * (k - 1), 4)]
  }

  /** Contents of the first `n` ids of a heap at `o` that ends at `end`. */
  function TextsOf(v: View, o: nat, end: nat, offs: seq<nat>, n: nat): (texts: seq<string>)
    requires n < |offs|
    ensures |texts| == n
  {
    if n == 0 then [] else TextsOf(v, o, end, offs, n - 1) + [v.text(o, end, offs[n - 1], offs[n])]
  }

  function IdMap(texts: seq<string>): map<int, string> {
    map i | 0 <= i < |texts| :: texts[i]
  }

  /** Contents to ids over the first `k` ids; empty contents are left out and a repeated one keeps its last id. */
  function VocabOf(texts: seq<string>, k: nat): map<string, int>
    requires k <= |texts|
  {
    if k == 0 then map[]
    else if texts[k - 1] == "" then VocabOf(texts, k - 1)
    else VocabOf(texts, k - 1)[texts[k - 1] := k - 1]
  }

  function ReadTail(v: View, o: nat): Result<seq<Pair>> {
    if o + 4 > v.size || v.num(o, 4) != MRG1 then Ok([])
    else if o + 8 > v.size then Err("struct.error: merge count")
    else
      match ReadMany(v.merge, o + 8, v.num(o + 4, 4))
      case Err(e) => Err(e)
      case Ok(ms) => Ok(ms.0)
  }

  datatype Loaded = Loaded(bos: nat, eos: nat, tok: Tokenizer)

  function Assembled(texts: seq<string>, merges: Result<seq<Pair>>): Result<Tokenizer> {
    match merges
    case Ok(ms) => Ok(Tokenizer(VocabOf(texts, |texts|), IdMap(texts), RanksOf(ms)))
    case Err(e) => Err(e)
  }

  /** Contents and merges behind the offset table of `n` pieces, which ends at `o`. */
  function LoadHeap(v: View, o: nat, offs: seq<nat>, n: nat): Result<Tokenizer>
    requires n < |offs|
  {
    var end := o + offs[n];
    Assembled(TextsOf(v, o, end, offs, n), ReadTail(v, end))
  }

  /** Where the offset table of `n` pieces ends. */
  function HeapStart(n: nat): nat {
    22 + 4 * (n + 1)
  }

  function HeaderError(v: View): Option<string> {
    if v.size < 4 || v.num(0, 4) != BPB1 then Some("BPB1 magic")
    else if v.num(4, if v.size < 6 then v.size - 4 else 2) != 1 then Some("BPB1 ver")
    else if v.size < 22 then Some("struct.error: header")
    else if v.size < HeapStart(v.num(18, 4)) then Some("struct.error: offsets")
    else None
  }

  function WithMarks(bos: nat, eos: nat, tok: Result<Tokenizer>): Result<Loaded> {
    match tok case Ok(t) => Ok(Loaded(bos, eos, t)) case Err(e) => Err(e)
  }

  function LoadView(v: View): Result<Loaded> {
    var e := HeaderError(v);
    if e.Some? then Err(e.value)
    else
      var n := v.num(18, 4);
      WithMarks(v.num(6, 4), v.num(10, 4), LoadHeap(v, HeapStart(n), WordsAt(v, 22, n + 1), n))
  }

  function Load(c: Codec, data: bytes): Result<Loaded> {
    LoadView(ViewOf(c, data))
  }

  method LoadTexts(v: View, o: nat, end: nat, offs: seq<nat>, n: nat) returns (texts: seq<string>)
    requires n < |offs|
    ensures texts == TextsOf(v, o, end, offs, n)
  {
    texts := [];
    var i := 0;
    while i < n
      invariant 0 <= i <= n
      invariant texts == TextsOf(v, o, end, offs, i)
    {
      texts := texts + [v.text(o, end, offs[i], offs[i + 1])];
      i := i + 1;
    }
  }

  method LoadVocab(texts: seq<string>) returns (vocab: map<string, int>)
    ensures vocab == VocabOf(texts, |texts|)
  {
    vocab := map[];
    var i := 0;
    while i < |texts|
      invariant 0 <= i <= |texts|
      invariant vocab == VocabOf(texts, i)
    {
      if texts[i] != "" {
        vocab := vocab[texts[i] := i];
      }
      i := i + 1;
    }
  }

  lemma {:induction false} RanksOneMore(ms: seq<Pair>, m: Pair)
    ensures RanksOf(ms + [m]) == RanksOf(ms)[m := |ms|]
  {
    assert (ms + [m])[..|ms|] == ms;
  }

  method LoadMerges(read: Reader<Pair>, o0: nat, k: nat) returns (r: Result<Ranks>)
    ensures var spec := ReadMany(read, o0, k);
            r == if spec.Ok? then Ok(RanksOf(spec.value.0)) else Err(spec.reason)
  {
    var ranks: Ranks := map[];
    ghost var ms: seq<Pair> := [];
    var i, o := 0, o0;
    while i < k
      invariant 0 <= i <= k && |ms| == i
      invariant ReadMany(read, o0, i) == Ok((ms, o)) && ranks == RanksOf(ms)
    {
      var m := read(o);
      if m.Err? {
        ReadManyStops(read, o0, i + 1, k);
        return Err(m.reason);
      }
      RanksOneMore(ms, m.value.0);
      ranks := ranks[m.value.0 := i];
      ms := ms + [m.value.0];
      o := m.value.1;
      i := i + 1;
    }
    r := Ok(ranks);
  }

  method LoadTail(v: View, o: nat) returns (r: Result<Ranks>)
    ensures var spec := ReadTail(v, o);
            r == if spec.Ok? then Ok(RanksOf(spec.value)) else Err(spec.reason)
  {
    if o + 4 > v.size || v.num(o, 4) != MRG1 {
      return Ok(map[]);
    }
    if o + 8 > v.size {
      return Err("struct.error: merge count");
    }
    r := LoadMerges(v.merge, o + 8, v.num(o + 4, 4));
  }

  method LoadFields(v: View, o: nat, offs: seq<nat>, n: nat) returns (r: Result<Tokenizer>)
    requires n < |offs|
    ensures r == LoadHeap(v, o, offs, n)
  {
    var end := o + offs[n];
    var texts := LoadTexts(v, o, end, offs, n);
    var vocab := LoadVocab(texts);
    ghost var merges := ReadTail(v, end);
    var ranks := LoadTail(v, end);
    if ranks.Err? {
      r := Err(ranks.reason);
    } else {
      r := Ok(Tokenizer(vocab, IdMap(texts), ranks.value));
    }
    assert r == Assembled(texts, merges);
  }

  method LoadFile(v: View) returns (r: Result<Loaded>)
    ensures r == LoadView(v)
  {
    var e := HeaderError(v);
    if e.Some? {
      r := Err(e.value);
    } else {
      var n := v.num(18, 4);
      var tok := LoadFields(v, HeapStart(n), WordsAt(v, 22, n + 1), n);
      r := WithMarks(v.num(6, 4), v.num(10, 4), tok);
    }
  }

  method FromBpb1(c: Codec, data: bytes) returns (r: Result<Loaded>)
    ensures r == Load(c, data)
  {
    r := LoadFile(ViewOf(c, data));
  }

  // ----- a file that reads as intended loads as intended ----------------------------------------------

  ghost predicate TailReads(v: View, o: nat, pairs: seq<Pair>) {
    forall k: nat :: Peek(k) ==> ReadTail(v, o) == Ok(pairs)
  }

  ghost predicate HeadReads(v: View, m: Marks, n: nat) {
    && v.size >= HeapStart(n) && v.num(0, 4) == BPB1 && v.num(4, 2) == 1
    && v.num(6, 4) == m.bos && v.num(10, 4) == m.eos && v.num(18, 4) == n
  }

  ghost predicate OffsetReads(v: View, offs: seq<nat>, i: nat)
    requires i < |offs|
  {
    v.num(22 + 4 * i, 4) == offs[i]
  }

  ghost predicate OffsetsRead(v: View, offs: seq<nat>) {
    forall i :: 0 <= i < |offs| ==> OffsetReads(v, offs, i)
  }

  ghost predicate PieceReads(v: View, o: nat, end: nat, offs: seq<nat>, texts: seq<string>, i: nat)
    requires i < |texts| < |offs|
  {
    v.text(o, end, offs[i], offs[i + 1]) == texts[i]
  }

  ghost predicate TextsRead(v: View, o: nat, end: nat, offs: seq<nat>, texts: seq<string>) {
    |offs| == |texts| + 1 && forall i :: 0 <= i < |texts| ==> PieceReads(v, o, end, offs, texts, i)
  }

  lemma {:induction false} OffsetsLoad(v: View, offs: seq<nat>, k: nat)
    requires k <= |offs| && OffsetsRead(v, offs)
    ensures WordsAt(v, 22, k) == offs[..k]
  {
    if k > 0 {
      OffsetsLoad(v, offs, k - 1);
      assert OffsetReads(v, offs, k - 1);
      assert offs[..k] == offs[..k - 1] + [offs[k - 1]];
    }
  }

  lemma {:induction false} TextsLoad(v: View, o: nat, end: nat, offs: seq<nat>, texts: seq<string>, k: nat)
    requires k <= |texts| && TextsRead(v, o, end, offs, texts)
    ensures TextsOf(v, o, end, offs, k) == texts[..k]
  {
    if k > 0 {
      assert PieceReads(v, o, end, offs, texts, k - 1);
      TextsLoad(v, o, end, offs, texts, k - 1);
      assert texts[..k] == texts[..k - 1] + [texts[k - 1]];
    }
  }

  ghost predicate FileReads(v: View, m: Marks, offs: seq<nat>, texts: seq<string>, pairs: seq<Pair>) {
    && |offs| == |texts| + 1 && HeadReads(v, m, |texts|) && OffsetsRead(v, offs)
    && var o := HeapStart(|texts|);
      TextsRead(v, o, o + offs[|texts|], offs, texts) && TailReads(v, o + offs[|texts|], pairs)
  }

  lemma {:induction false} HeapLoads(v: View, o: nat, offs: seq<nat>, texts: seq<string>, pairs: seq<Pair>)
    requires |offs| == |texts| + 1
    requires TextsRead(v, o, o + offs[|texts|], offs, texts) && TailReads(v, o + offs[|texts|], pairs)
    ensures LoadHeap(v, o, offs, |texts|) == Assembled(texts, Ok(pairs))
  {
    assert Peek(0);
    TextsLoad(v, o, o + offs[|texts|], offs, texts, |texts|);
    assert texts[..|texts|] == texts;
  }

  lemma {:induction false} ViewLoads(v: View, m: Marks, offs: seq<nat>, texts: seq<string>, pairs: seq<Pair>)
    requires FileReads(v, m, offs, texts, pairs)
    ensures LoadView(v) == WithMarks(m.bos, m.eos, Assembled(texts, Ok(pairs)))
  {
    HeapLoads(v, HeapStart(|texts|), offs, texts, pairs);
    OffsetsLoad(v, offs, |offs|);
    assert offs[..|offs|] == offs;
  }

  // ----- an exported file reads as intended --------------------------------------------------------------

  lemma {:induction false} NumReads(c: Codec, data: bytes, o: nat, n: nat, k: nat)
    requires n < Limit(k) && At(data, o, LE(n, k))
    ensures ViewOf(c, data).num(o, k) == n
  {
    NumBack(data, o, n, k);
  }

  lemma {:induction false} WordReads(c: Codec, data: bytes, o: nat, w: nat)
    requires w < WORD && At(data, o, LE(w, 4))
    ensures ViewOf(c, data).num(o, 4) == w
  {
    NumReads(c, data, o, w, 4);
  }

  lemma {:induction false} HeadSplit(data: bytes, p: bytes, v: bytes, a: bytes, b: bytes, c: bytes, d: bytes)
    requires At(data, 0, p + v + a + b + c + d) && |p| == 4 && |v| == 2 && |a| == |b| == |c| == 4
    ensures At(data, 0, p) && At(data, 4, v) && At(data, 6, a) && At(data, 10, b) && At(data, 18, d)
  {
    AtSplit(data, 0, p + v + a + b + c, d);
    AtSplit(data, 0, p + v + a + b, c);
    AtSplit(data, 0, p + v + a, b);
    AtSplit(data, 0, p + v, a);
    AtSplit(data, 0, p, v);
  }

  lemma {:induction false} HeadBack(c: Codec, data: bytes, m: Marks, n: nat)
    requires At(data, 0, Head(m, n)) && m.bos < WORD && m.eos < WORD && n < WORD && |data| >= HeapStart(n)
    ensures HeadReads(ViewOf(c, data), m, n)
  {
    HeadSplit(data, LE(BPB1, 4), LE(1, 2), LE(m.bos, 4), LE(m.eos, 4), LE(m.eot, 4), LE(n, 4));
    WordReads(c, data, 0, BPB1);
    NumReads(c, data, 4, 1, 2);
    WordReads(c, data, 6, m.bos);
    WordReads(c, data, 10, m.eos);
    WordReads(c, data, 18, n);
  }

  lemma {:induction false} WordInTable(data: bytes, o: nat, ws: seq<nat>, k: nat, i: nat)
    requires i < k <= |ws| && At(data, o, Cells(ws, 4, k))
    ensures At(data, o + 4 * i, LE(ws[i], 4))
  {
    AtSplit(data, o, Cells(ws, 4, k - 1), LE(ws[k - 1], 4));
    if i < k - 1 {
      WordInTable(data, o, ws, k - 1, i);
    }
  }

  lemma {:induction false} OffsetBack(c: Codec, data: bytes, offs: seq<nat>, i: nat)
    requires i < |offs| && offs[i] < WORD && At(data, 22, Cells(offs, 4, |offs|))
    ensures OffsetReads(ViewOf(c, data), offs, i)
  {
    WordInTable(data, 22, offs, |offs|, i);
    WordReads(c, data, 22 + 4 * i, offs[i]);
  }

  /** Every offset can be written in four bytes. */
  ghost predicate OffsetsFit(offs: seq<nat>) {
    forall k: nat :: Peek(k) ==> AllBelow(offs, WORD)
  }

  lemma {:induction false} OffsetsBack(c: Codec, data: bytes, offs: seq<nat>)
    requires At(data, 22, Cells(offs, 4, |offs|)) && OffsetsFit(offs)
    ensures OffsetsRead(ViewOf(c, data), offs)
  {
    assert Peek(0);
    forall i | 0 <= i < |offs| ensures OffsetReads(ViewOf(c, data), offs, i) {
      OffsetBack(c, data, offs, i);
    }
  }

  lemma {:induction false} OffsetAt(pieces: seq<bytes>, n: nat, k: nat)
    requires k <= n <= |pieces|
    ensures Offsets(pieces, n)[k] == |Join(pieces, k)| <= |Join(pieces, n)|
    decreases n
  {
    if k < n {
      OffsetAt(pieces, n - 1, k);
    }
  }

  lemma {:induction false} JoinSlice(heap: bytes, x: bytes, more: bytes, i: nat, j: nat)
    requires i <= j <= |heap| && heap[i..j] == x
    ensures (heap + more)[i..j] == x
  {
  }

  lemma {:induction false} PieceInHeap(pieces: seq<bytes>, n: nat, k: nat)
    requires k < n <= |pieces|
    ensures |Join(pieces, k)| <= |Join(pieces, k + 1)| <= |Join(pieces, n)|
    ensures Join(pieces, n)[|Join(pieces, k)|..|Join(pieces, k + 1)|] == pieces[k]
    decreases n
  {
    if k + 1 < n {
      PieceInHeap(pieces, n - 1, k);
      JoinSlice(Join(pieces, n - 1), pieces[k], pieces[n - 1], |Join(pieces, k)|, |Join(pieces, k + 1)|);
    }
  }

  /** No content is too long for the file. */
  predicate PiecesFit(c: Codec, texts: seq<string>) {
    forall i :: 0 <= i < |texts| ==> |c.enc(texts[i])| <= MAX_PIECE
  }

  lemma {:induction false} TextBack(c: Codec, s: string, pieces: seq<bytes>, i: nat)
    requires Lawful(c) && i < |pieces| && pieces[i] == c.enc(s)
    ensures var offs := Offsets(pieces, |pieces|); TextAt(c, Heap(pieces), offs[i], offs[i + 1]) == s
  {
    OffsetAt(pieces, |pieces|, i);
    OffsetAt(pieces, |pieces|, i + 1);
    PieceInHeap(pieces, |pieces|, i);
  }

  lemma {:induction false} SliceAt(data: bytes, o: nat, x: bytes)
    requires At(data, o, x)
    ensures Slice(data, o, o + |x|) == x
  {
    AtSlice(data, o, x);
  }

  lemma {:induction false} TextReads(c: Codec, data: bytes, o: nat, heap: bytes, a: nat, b: nat)
    requires At(data, o, heap)
    ensures ViewOf(c, data).text(o, o + |heap|, a, b) == TextAt(c, heap, a, b)
  {
    SliceAt(data, o, heap);
  }

  lemma {:induction false} TextsBack(c: Codec, data: bytes, o: nat, texts: seq<string>, pieces: seq<bytes>)
    requires Lawful(c) && PiecesFit(c, texts) && pieces == Pieces(c, texts) && At(data, o, Heap(pieces))
    ensures TextsRead(ViewOf(c, data), o, o + |Heap(pieces)|, Offsets(pieces, |pieces|), texts)
  {
    var offs, v, heap := Offsets(pieces, |pieces|), ViewOf(c, data), Heap(pieces);
    var end := o + |heap|;
    forall i | 0 <= i < |texts| ensures PieceReads(v, o, end, offs, texts, i) {
      TextBack(c, texts[i], pieces, i);
      TextReads(c, data, o, heap, offs[i], offs[i + 1]);
    }
  }

  lemma {:induction false} StringBack(c: Codec, data: bytes, o: nat, s: string, x: bytes)
    requires Lawful(c) && x == c.enc(s) && |x| <= MAX_PIECE
    requires At(data, o, LE(|x|, 2)) && At(data, o + 2, x)
    ensures ReadString(c, data, o) == Ok((s, o + 2 + |x|))
  {
    NumBack(data, o, |x|, 2);
    SliceAt(data, o + 2, x);
  }

  lemma {:induction false} RecordSplit(data: bytes, o: nat, p: bytes, a: bytes, q: bytes, b: bytes)
    requires At(data, o, p + a + q + b)
    ensures At(data, o, p) && At(data, o + |p|, a) && At(data, o + |p| + |a|, q) && At(data, o + |p| + |a| + |q|, b)
  {
    AtSplit(data, o, p + a + q, b);
    AtSplit(data, o, p + a, q);
    AtSplit(data, o, p, a);
  }

  lemma {:induction false} MergeBack(c: Codec, data: bytes, o: nat, m: Pair, a: bytes, b: bytes)
    requires Lawful(c) && Short(c, m) && a == c.enc(m.0) && b == c.enc(m.1)
    requires At(data, o, MergeRecord((a, b)))
    ensures ReadMerge(c, data, o) == Ok((m, o + |MergeRecord((a, b))|))
  {
    RecordSplit(data, o, LE(|a|, 2), a, LE(|b|, 2), b);
    StringBack(c, data, o, m.0, a);
    StringBack(c, data, o + 2 + |a|, m.1, b);
  }

  lemma {:induction false} MergeReadsBack(c: Codec, data: bytes, m: Pair, ab: (bytes, bytes))
    requires Lawful(c) && Short(c, m) && ab == (c.enc(m.0), c.enc(m.1))
    ensures ReadsBack(data, ViewOf(c, data).merge, MergeRecord(ab), m)
  {
    var rec, read := MergeRecord(ab), ViewOf(c, data).merge;
    forall p: nat | At(data, p, rec) ensures read(p) == Ok((m, p + |rec|)) {
      MergeBack(c, data, p, m, ab.0, ab.1);
    }
  }

  lemma {:induction false} ShortMergesFit(c: Codec, merges: seq<Pair>, k: nat)
    requires k <= |merges|
    ensures forall i :: 0 <= i < |ShortMerges(c, merges, k)| ==> Short(c, ShortMerges(c, merges, k)[i])
  {
    if k > 0 {
      ShortMergesFit(c, merges, k - 1);
    }
  }

  ghost predicate AllReadBack(data: bytes, read: Reader<Pair>, recs: seq<bytes>, pairs: seq<Pair>) {
    |recs| == |pairs| && forall i :: 0 <= i < |recs| ==> ReadsBack(data, read, recs[i], pairs[i])
  }

  lemma {:induction false} MergesReadBack(c: Codec, data: bytes, pairs: seq<Pair>)
    requires Lawful(c) && forall i :: 0 <= i < |pairs| ==> Short(c, pairs[i])
    ensures AllReadBack(data, ViewOf(c, data).merge, Records(Encoded(c, pairs)), pairs)
  {
    var ms, read := Encoded(c, pairs), ViewOf(c, data).merge;
    var recs := Records(ms);
    forall i | 0 <= i < |recs| ensures ReadsBack(data, read, recs[i], pairs[i]) {
      MergeReadsBack(c, data, pairs[i], ms[i]);
    }
  }

  lemma {:induction false} TailParts(v: View, data: bytes, o: nat, recs: seq<bytes>, pairs: seq<Pair>)
    requires AllReadBack(data, v.merge, recs, pairs) && v.size == |data|
    requires if pairs == [] then o == v.size
             else o + 8 <= v.size && v.num(o, 4) == MRG1 && v.num(o + 4, 4) == |pairs| && At(data, o + 8, Join(recs, |recs|))
    ensures TailReads(v, o, pairs)
  {
    if pairs != [] {
      ReadManyBack(data, v.merge, o + 8, recs, pairs, |recs|);
      assert pairs[..|recs|] == pairs;
    }
  }

  lemma {:induction false} TailSplit(data: bytes, o: nat, a: bytes, b: bytes, j: bytes)
    requires At(data, o, a + b + j) && |a| == |b| == 4
    ensures At(data, o, a) && At(data, o + 4, b) && At(data, o + 8, j) && o + 8 <= |data|
  {
    AtSplit(data, o, a + b, j);
    AtSplit(data, o, a, b);
  }

  lemma {:induction false} TailBack(c: Codec, data: bytes, o: nat, pairs: seq<Pair>)
    requires Lawful(c) && |pairs| < WORD && forall i :: 0 <= i < |pairs| ==> Short(c, pairs[i])
    requires At(data, o, Tail(Encoded(c, pairs))) && o + |Tail(Encoded(c, pairs))| == |data|
    ensures TailReads(ViewOf(c, data), o, pairs)
  {
    var ms := Encoded(c, pairs);
    var recs := Records(ms);
    MergesReadBack(c, data, pairs);
    if pairs != [] {
      TailSplit(data, o, LE(MRG1, 4), LE(|ms|, 4), Join(recs, |ms|));
      WordReads(c, data, o, MRG1);
      WordReads(c, data, o + 4, |ms|);
    }
    TailParts(ViewOf(c, data), data, o, recs, pairs);
  }

  lemma {:induction false} OffsetsPack(pieces: seq<bytes>)
    requires |Heap(pieces)| < WORD
    ensures var offs := Offsets(pieces, |pieces|);
            offs[|pieces|] == |Heap(pieces)| && OffsetsFit(offs)
  {
    var offs := Offsets(pieces, |pieces|);
    forall i | 0 <= i <= |pieces| ensures offs[i] < WORD {
      OffsetAt(pieces, |pieces|, i);
    }
    OffsetAt(pieces, |pieces|, |pieces|);
  }

  ghost predicate Parts(data: bytes, m: Marks, offs: seq<nat>, heap: bytes, tail: bytes) {
    && |offs| >= 1 && offs[|offs| - 1] == |heap|
    && At(data, 0, Head(m, |offs| - 1)) && At(data, 22, Cells(offs, 4, |offs|))
    && At(data, HeapStart(|offs| - 1), heap) && At(data, HeapStart(|offs| - 1) + |heap|, tail)
    && HeapStart(|offs| - 1) + |heap| + |tail| == |data|
  }

  /** The four parts stand where the loader looks for them. */
  ghost predicate LaidOut(data: bytes, m: Marks, offs: seq<nat>, heap: bytes, tail: bytes) {
    forall k: nat :: Peek(k) ==> Parts(data, m, offs, heap, tail)
  }

  lemma {:induction false} FrontBack(c: Codec, data: bytes, m: Marks, offs: seq<nat>, heap: bytes, tail: bytes)
    requires LaidOut(data, m, offs, heap, tail) && m.bos < WORD && m.eos < WORD && |offs| <= WORD
    requires OffsetsFit(offs)
    ensures |offs| >= 1 && HeadReads(ViewOf(c, data), m, |offs| - 1) && OffsetsRead(ViewOf(c, data), offs)
    ensures offs[|offs| - 1] == |heap|
  {
    assert Peek(0);
    HeadBack(c, data, m, |offs| - 1);
    OffsetsBack(c, data, offs);
  }

  lemma {:induction false} LaidOutLoads(c: Codec, data: bytes, m: Marks, offs: seq<nat>, heap: bytes, tail: bytes,
                                        texts: seq<string>, pairs: seq<Pair>)
    requires LaidOut(data, m, offs, heap, tail) && m.bos < WORD && m.eos < WORD && |offs| <= WORD
    requires OffsetsFit(offs)
    requires TextsRead(ViewOf(c, data), HeapStart(|texts|), HeapStart(|texts|) + |heap|, offs, texts)
    requires TailReads(ViewOf(c, data), HeapStart(|texts|) + |heap|, pairs)
    ensures LoadView(ViewOf(c, data)) == WithMarks(m.bos, m.eos, Assembled(texts, Ok(pairs)))
  {
    FrontBack(c, data, m, offs, heap, tail);
    ViewLoads(ViewOf(c, data), m, offs, texts, pairs);
  }

  lemma {:induction false} FileIsLaidOut(m: Marks, pieces: seq<bytes>, ms: seq<(bytes, bytes)>)
    requires |Heap(pieces)| < WORD
    ensures LaidOut(FileBytes(m, pieces, ms), m, Offsets(pieces, |pieces|), Heap(pieces), Tail(ms))
  {
    OffsetsPack(pieces);
    AtFour(Head(m, |pieces|), Cells(Offsets(pieces, |pieces|), 4, |pieces| + 1), Heap(pieces), Tail(ms));
  }

  lemma {:induction false} PlacesOf(data: bytes, m: Marks, offs: seq<nat>, heap: bytes, tail: bytes)
    requires LaidOut(data, m, offs, heap, tail)
    ensures |offs| >= 1 && At(data, HeapStart(|offs| - 1), heap)
    ensures At(data, HeapStart(|offs| - 1) + |heap|, tail) && HeapStart(|offs| - 1) + |heap| + |tail| == |data|
  {
    assert Peek(0);
  }

  lemma {:induction false} FileTexts(c: Codec, data: bytes, m: Marks, texts: seq<string>, pieces: seq<bytes>,
                                     offs: seq<nat>, heap: bytes, tail: bytes)
    requires Lawful(c) && PiecesFit(c, texts) && pieces == Pieces(c, texts)
    requires offs == Offsets(pieces, |pieces|) && heap == Heap(pieces) && LaidOut(data, m, offs, heap, tail)
    ensures TextsRead(ViewOf(c, data), HeapStart(|texts|), HeapStart(|texts|) + |heap|, offs, texts)
  {
    PlacesOf(data, m, offs, heap, tail);
    TextsBack(c, data, HeapStart(|texts|), texts, pieces);
  }

  lemma {:induction false} FileTail(c: Codec, data: bytes, m: Marks, offs: seq<nat>, heap: bytes, pairs: seq<Pair>)
    requires Lawful(c) && |pairs| < WORD && forall i :: 0 <= i < |pairs| ==> Short(c, pairs[i])
    requires |offs| >= 1 && LaidOut(data, m, offs, heap, Tail(Encoded(c, pairs)))
    ensures TailReads(ViewOf(c, data), HeapStart(|offs| - 1) + |heap|, pairs)
  {
    PlacesOf(data, m, offs, heap, Tail(Encoded(c, pairs)));
    TailBack(c, data, HeapStart(|offs| - 1) + |heap|, pairs);
  }

  lemma {:induction false} FileBack(c: Codec, data: bytes, m: Marks, texts: seq<string>, pieces: seq<bytes>,
                                    pairs: seq<Pair>, offs: seq<nat>, heap: bytes, tail: bytes)
    requires Lawful(c) && PiecesFit(c, texts) && pieces == Pieces(c, texts) && Packs(m, pieces, Encoded(c, pairs))
    requires forall i :: 0 <= i < |pairs| ==> Short(c, pairs[i])
    requires offs == Offsets(pieces, |pieces|) && heap == Heap(pieces) && tail == Tail(Encoded(c, pairs))
    requires LaidOut(data, m, offs, heap, tail)
    ensures LoadView(ViewOf(c, data)) == WithMarks(m.bos, m.eos, Assembled(texts, Ok(pairs)))
  {
    OffsetsPack(pieces);
    FileTexts(c, data, m, texts, pieces, offs, heap, tail);
    FileTail(c, data, m, offs, heap, pairs);
    LaidOutLoads(c, data, m, offs, heap, tail, texts, pairs);
  }

  /** Loading inverts exporting: contents and special ids come back, and so do the merges short enough to keep. */
  lemma {:induction false} LoadInvertsExport(c: Codec, t: TokJson, sp32: bool)
    requires Lawful(c) && Exported(c, t, sp32).Ok? && PiecesFit(c, AllContents(Table(t)))
    ensures var m := MarksOf(Table(t), sp32);
            Load(c, Exported(c, t, sp32).value) ==
            WithMarks(m.bos, m.eos, Assembled(AllContents(Table(t)), Ok(KeptMerges(c, t))))
  {
    var d, data, pairs := Table(t), Exported(c, t, sp32).value, KeptMerges(c, t);
    var pieces := Pieces(c, AllContents(d));
    ShortMergesFit(c, t.merges, |t.merges|);
    FileIsLaidOut(MarksOf(d, sp32), pieces, Encoded(c, pairs));
    FileBack(c, data, MarksOf(d, sp32), AllContents(d), pieces, pairs, Offsets(pieces, |pieces|), Heap(pieces),
             Tail(Encoded(c, pairs)));
  }

  /** The tokenizer a loaded file holds. */
  function Restored(c: Codec, t: TokJson): Tokenizer {
    var texts := AllContents(Table(t));
    Tokenizer(VocabOf(texts, |texts|), IdMap(texts), RanksOf(KeptMerges(c, t)))
  }

  lemma {:induction false} LoadedTokenizer(c: Codec, t: TokJson, sp32: bool)
    requires Lawful(c) && Exported(c, t, sp32).Ok? && PiecesFit(c, AllContents(Table(t)))
    ensures var bin := Load(c, Exported(c, t, sp32).value); bin.Ok? && bin.value.tok == Restored(c, t)
  {
    LoadInvertsExport(c, t, sp32);
  }
}
