/** The same tokenizer from the exported file and from the JSON it was exported from (tools/chat_v6.py,
    tools/export_bpe_bin.py): ids and shown texts agree, and merges the exporter had to drop matter exactly
    for the pieces whose merging picks one of them.
 */
module Bpb1Agreement {
  import opened Basics
  import opened Wire
  import opened Bpe
  import opened Bpb1

  // ----- the vocabularies -----------------------------------------------------------------------------------------

  /** Contents to ids as the JSON constructor collects them: vocabulary items override, added ones do not. */
  function JsonVocab(t: TokJson, n: nat): map<string, int>
    requires n <= |Items(t)|
  {
    if n == 0 then map[]
    else
      var (s, i) := Items(t)[n - 1];
      var before := JsonVocab(t, n - 1);
      if n > |t.vocab| && s in before then before else before[s := i]
  }

  method CollectVocab(t: TokJson) returns (vocab: map<string, int>)
    ensures vocab == JsonVocab(t, |Items(t)|)
  {
    vocab := map[];
    var i := 0;
    while i < |t.vocab|
      invariant 0 <= i <= |t.vocab|
      invariant vocab == JsonVocab(t, i)
    {
      vocab := vocab[t.vocab[i].0 := t.vocab[i].1];
      i := i + 1;
    }
    i := 0;
    while i < |t.added|
      invariant 0 <= i <= |t.added|
      invariant vocab == JsonVocab(t, |t.vocab| + i)
    {
      assert Items(t)[|t.vocab| + i] == t.added[i];
      if t.added[i].0 !in vocab {
        vocab := vocab[t.added[i].0 := t.added[i].1];
      }
      i := i + 1;
    }
  }

  /** Each content has one id and each id one content. */
  predicate Unique(items: seq<Item>) {
    forall i, j :: 0 <= i < |items| && 0 <= j < |items| ==> (items[i].0 == items[j].0 <==> items[i].1 == items[j].1)
  }

  lemma {:induction false} JsonVocabHolds(t: TokJson, n: nat)
    requires n <= |Items(t)|
    ensures forall s :: s in JsonVocab(t, n) ==> JsonVocab(t, n)[s] >= 0 && (s, JsonVocab(t, n)[s]) in Items(t)
    ensures forall i :: 0 <= i < n ==> Items(t)[i].0 in JsonVocab(t, n)
  {
    if n > 0 {
      JsonVocabHolds(t, n - 1);
      var (s, i) := Items(t)[n - 1];
      assert (s, i) in Items(t);
    }
  }

  lemma {:induction false} VocabOfHolds(texts: seq<string>, k: nat)
    requires k <= |texts|
    ensures forall s :: s in VocabOf(texts, k) ==> s != "" && 0 <= VocabOf(texts, k)[s] < k && texts[VocabOf(texts, k)[s]] == s
    ensures forall i :: 0 <= i < k && texts[i] != "" ==> texts[i] in VocabOf(texts, k)
  {
    if k > 0 {
      VocabOfHolds(texts, k - 1);
    }
  }

  /** The id table of unique items holds exactly the items. */
  lemma {:induction false} TableHolds(t: TokJson, s: string, k: nat)
    requires Unique(Items(t))
    ensures Get(Table(t), k) == Some(s) <==> (s, k) in Items(t)
  {
    Id2Holds(Items(t), |Items(t)|, k);
    var got := Get(Table(t), k);
    if (s, k) in Items(t) {
      var i :| 0 <= i < |Items(t)| && Items(t)[i] == (s, k);
      assert got.Some?;
      var j :| 0 <= j < |Items(t)| && Items(t)[j] == (got.value, k);
      assert Items(t)[i].1 == Items(t)[j].1;
    }
  }

  lemma {:induction false} OneId(t: TokJson, s: string, k: nat)
    requires Unique(Items(t)) && (s, k) in Items(t)
    ensures s in JsonVocab(t, |Items(t)|) && JsonVocab(t, |Items(t)|)[s] == k
  {
    JsonVocabHolds(t, |Items(t)|);
    var i :| 0 <= i < |Items(t)| && Items(t)[i] == (s, k);
    assert Items(t)[i].0 in JsonVocab(t, |Items(t)|);
    var j :| 0 <= j < |Items(t)| && Items(t)[j] == (s, JsonVocab(t, |Items(t)|)[s]);
    assert Items(t)[i].0 == Items(t)[j].0;
  }

  /** A content and its id, as the two vocabularies know them. */
  lemma {:induction false} VocabAgrees(t: TokJson, s: string)
    requires Unique(Items(t)) && s != ""
    ensures var bin, json := VocabOf(AllContents(Table(t)), VocabN(Table(t))), JsonVocab(t, |Items(t)|);
            (s in bin <==> s in json) && (s in bin ==> bin[s] == json[s])
  {
    var d, texts := Table(t), AllContents(Table(t));
    var bin, json := VocabOf(texts, |texts|), JsonVocab(t, |Items(t)|);
    VocabOfHolds(texts, |texts|);
    JsonVocabHolds(t, |Items(t)|);
    if s in json {
      var k: nat := json[s];
      TableHolds(t, s, k);
      GetBelowN(d, k);
      assert texts[k] == s;
    }
    if s in bin {
      var k := bin[s];
      assert texts[k] == GetOr(d, k) == s;
      TableHolds(t, s, k);
      OneId(t, s, k);
    }
  }

  /** The tokenizer of the JSON constructor, its reverse table aside. */
  function JsonTokenizer(t: TokJson, id2: map<int, string>): Tokenizer {
    Tokenizer(JsonVocab(t, |Items(t)|), id2, RanksOf(t.merges))
  }

  // ----- dropped merges -----------------------------------------------------------------------------------

  /** `kept` ranks the short pairs of `all`, and ranks them in the same order. */
  ghost predicate SameOrder(c: Codec, all: Ranks, kept: Ranks) {
    && (forall p :: p in kept <==> p in all && Short(c, p))
    && (forall p, q :: p in kept && q in kept ==> (all[p] < all[q] <==> kept[p] < kept[q]))
  }

  lemma {:induction false} LastComesLast(c: Codec, all: Ranks, kept: Ranks, p: Pair, m: nat, n: nat)
    requires SameOrder(c, all, kept)
    requires (forall q :: q in all ==> all[q] < m) && (forall q :: q in kept ==> kept[q] < n)
    ensures SameOrder(c, all[p := m], if Short(c, p) then kept[p := n] else kept)
  {
  }

  lemma {:induction false} RanksPush(merges: seq<Pair>, p: Pair)
    ensures RanksOf(merges + [p]) == RanksOf(merges)[p := |merges|]
    ensures forall q :: q in RanksOf(merges) ==> RanksOf(merges)[q] < |merges|
  {
    assert (merges + [p])[..|merges|] == merges;
    RanksAreDistinct(merges);
  }

  /** Dropping long pairs shifts the ranks of all later ones and keeps the order of those left. */
  lemma {:induction false} DroppingKeepsOrder(c: Codec, merges: seq<Pair>, k: nat)
    requires k <= |merges|
    ensures SameOrder(c, RanksOf(merges[..k]), RanksOf(ShortMerges(c, merges, k)))
  {
    if k > 0 {
      var before, kept, p := merges[..k - 1], ShortMerges(c, merges, k - 1), merges[k - 1];
      DroppingKeepsOrder(c, merges, k - 1);
      RanksPush(before, p);
      RanksPush(kept, p);
      assert merges[..k] == before + [p];
      LastComesLast(c, RanksOf(before), RanksOf(kept), p, |before|, |kept|);
    }
  }

  /** Merging this word, the loop picks a pair the file has no room for. */
  predicate PicksLong(c: Codec, ranks: Ranks, w: Symbols)
    decreases |w|
  {
    NextPairIsBest(ranks, w);
    match NextPair(ranks, w)
    case None => false
    case Some(p) =>
      MergeShortens(w, p.0, p.1);
      !Short(c, p) || PicksLong(c, ranks, MergePass(w, p.0, p.1))
  }

  /** The next pair is the same with and without the long pairs, unless it is one of them. */
  lemma {:induction false} SameNext(c: Codec, all: Ranks, kept: Ranks, w: Symbols)
    requires SameOrder(c, all, kept) && DistinctRanks(kept)
    requires NextPair(all, w).Some? ==> Short(c, NextPair(all, w).value)
    ensures NextPair(all, w) == NextPair(kept, w)
  {
    NextPairIsBest(all, w);
    NextPairIsBest(kept, w);
    if NextPair(all, w).Some? {
      var p := NextPair(all, w).value;
      assert Best(kept, w, p);
      BestIsUnique(kept, w, p);
    }
  }

  lemma {:induction false} SameReduction(c: Codec, all: Ranks, kept: Ranks, w: Symbols)
    requires SameOrder(c, all, kept) && DistinctRanks(kept) && !PicksLong(c, all, w)
    ensures Reduce(all, w) == Reduce(kept, w)
    decreases |w|
  {
    SameNext(c, all, kept, w);
    NextPairIsBest(all, w);
    var next := NextPair(all, w);
    if next.Some? {
      MergeShortens(w, next.value.0, next.value.1);
      SameReduction(c, all, kept, MergePass(w, next.value.0, next.value.1));
    }
  }

  // ----- a dropped merge that is picked is missed -----------------------------------------------------------

  /** A part of a text is never encoded longer than the whole. */
  ghost predicate Monotone(c: Codec) {
    forall a, b: string :: |c.enc(a)| <= |c.enc(a + b)| && |c.enc(b)| <= |c.enc(a + b)|
  }

  /** Two symbols of a word that starts at `o` meet at `x`. */
  predicate Cut(w: Symbols, o: nat, x: nat) {
    |w| >= 2 && (x == o + |w[0]| || Cut(w[1..], o + |w[0]|, x))
  }

  /** They do, and are no pair for the file. */
  predicate LongCut(c: Codec, w: Symbols, o: nat, x: nat) {
    |w| >= 2 && ((x == o + |w[0]| && !Short(c, (w[0], w[1]))) || LongCut(c, w[1..], o + |w[0]|, x))
  }

  lemma {:induction false} LongCutIsCut(c: Codec, w: Symbols, o: nat, x: nat)
    requires LongCut(c, w, o, x)
    ensures Cut(w, o, x)
  {
    if LongCut(c, w[1..], o + |w[0]|, x) {
      LongCutIsCut(c, w[1..], o + |w[0]|, x);
    }
  }

  lemma {:induction false} CutLiesBehind(w: Symbols, o: nat, x: nat)
    requires NoEmptySymbol(w) && Cut(w, o, x)
    ensures x > o
  {
    if x != o + |w[0]| {
      CutLiesBehind(w[1..], o + |w[0]|, x);
    }
  }

  lemma {:induction false} CutCons(s: string, w: Symbols, o: nat, x: nat)
    ensures Cut([s] + w, o, x) <==> w != [] && (x == o + |s| || Cut(w, o + |s|, x))
  {
    assert ([s] + w)[1..] == w;
  }

  /** A merge pass makes no new cut. */
  lemma {:induction false} MergeCut(w: Symbols, a: string, b: string, o: nat, x: nat)
    requires Cut(MergePass(w, a, b), o, x)
    ensures Cut(w, o, x)
    decreases |w|
  {
    if |w| >= 2 && w[0] == a && w[1] == b {
      var rest := w[2..];
      assert w[1..][1..] == rest;
      CutCons(a + b, MergePass(rest, a, b), o, x);
      if Cut(MergePass(rest, a, b), o + |a + b|, x) {
        MergeCut(rest, a, b, o + |a + b|, x);
      }
    } else {
      CutCons(w[0], MergePass(w[1..], a, b), o, x);
      if Cut(MergePass(w[1..], a, b), o + |w[0]|, x) {
        MergeCut(w[1..], a, b, o + |w[0]|, x);
      }
    }
  }

  lemma {:induction false} ReduceCut(ranks: Ranks, w: Symbols, x: nat)
    requires Cut(Reduce(ranks, w), 0, x)
    ensures Cut(w, 0, x)
    decreases |w|
  {
    NextPairIsBest(ranks, w);
    var next := NextPair(ranks, w);
    if next.Some? {
      var (a, b) := next.value;
      MergeShortens(w, a, b);
      ReduceCut(ranks, MergePass(w, a, b), x);
      MergeCut(w, a, b, 0, x);
    }
  }

  lemma {:induction false} FirstCutGoes(w: Symbols, a: string, b: string, o: nat)
    requires NoEmptySymbol(w) && |w| >= 2 && w[0] == a && w[1] == b
    ensures !Cut(MergePass(w, a, b), o, o + |a|)
  {
    var rest := MergePass(w[2..], a, b);
    CutCons(a + b, rest, o, o + |a|);
    MergeKeepsNonEmpty(w[2..], a, b);
    if Cut(rest, o + |a + b|, o + |a|) {
      CutLiesBehind(rest, o + |a + b|, o + |a|);
    }
  }

  /** Merging a long pair removes a cut between long symbols. */
  lemma {:induction false} LongMergeRemovesCut(c: Codec, w: Symbols, a: string, b: string, o: nat) returns (x: nat)
    requires NoEmptySymbol(w) && Adjacent(w, (a, b)) && !Short(c, (a, b))
    ensures LongCut(c, w, o, x) && !Cut(MergePass(w, a, b), o, x)
    decreases |w|
  {
    if w[0] == a && w[1] == b {
      x := o + |a|;
      FirstCutGoes(w, a, b, o);
    } else {
      var i :| 0 <= i < |w| - 1 && w[i] == a && w[i + 1] == b;
      assert w[1..][i - 1] == a && w[1..][i] == b;
      x := LongMergeRemovesCut(c, w[1..], a, b, o + |w[0]|);
      LongCutIsCut(c, w[1..], o + |w[0]|, x);
      CutLiesBehind(w[1..], o + |w[0]|, x);
      CutCons(w[0], MergePass(w[1..], a, b), o, x);
    }
  }

  lemma {:induction false} HeadGrows(c: Codec, w: Symbols, a: string, b: string)
    requires Monotone(c) && w != []
    ensures MergePass(w, a, b) != [] && |c.enc(w[0])| <= |c.enc(MergePass(w, a, b)[0])|
  {
  }

  lemma {:induction false} LongCutCons(c: Codec, s: string, w: Symbols, o: nat, x: nat)
    ensures LongCut(c, [s] + w, o, x) <==>
            w != [] && ((x == o + |s| && !Short(c, (s, w[0]))) || LongCut(c, w, o + |s|, x))
  {
    assert ([s] + w)[1..] == w;
  }

  /** The cut in front of `w` stays long when `w` is merged and the symbol `s` before it has grown to `r`. */
  lemma {:induction false} StaysLong(c: Codec, s: string, r: string, w: Symbols, a: string, b: string)
    requires Monotone(c) && w != [] && !Short(c, (s, w[0])) && |c.enc(s)| <= |c.enc(r)|
    ensures MergePass(w, a, b) != [] && !Short(c, (r, MergePass(w, a, b)[0]))
  {
    HeadGrows(c, w, a, b);
  }

  /** No merge of short symbols removes a cut between long ones. */
  lemma {:induction false} ShortMergeKeepsCut(c: Codec, w: Symbols, a: string, b: string, o: nat, x: nat)
    requires Monotone(c) && Short(c, (a, b)) && LongCut(c, w, o, x)
    ensures LongCut(c, MergePass(w, a, b), o, x)
    decreases |w|
  {
    var joins := w[0] == a && w[1] == b;
    var first, rest := if joins then a + b else w[0], if joins then w[2..] else w[1..];
    LongCutCons(c, first, MergePass(rest, a, b), o, x);
    if joins {
      assert w[1..][1..] == rest;
    }
    if LongCut(c, rest, o + |first|, x) {
      ShortMergeKeepsCut(c, rest, a, b, o + |first|, x);
    } else {
      StaysLong(c, if joins then b else w[0], first, rest, a, b);
    }
  }

  lemma {:induction false} ShortMergesKeepCut(c: Codec, kept: Ranks, w: Symbols, x: nat)
    requires Monotone(c) && LongCut(c, w, 0, x) && forall p :: p in kept ==> Short(c, p)
    ensures Cut(Reduce(kept, w), 0, x)
    decreases |w|
  {
    NextPairIsBest(kept, w);
    var next := NextPair(kept, w);
    if next.Some? {
      var (a, b) := next.value;
      MergeShortens(w, a, b);
      ShortMergeKeepsCut(c, w, a, b, 0, x);
      ShortMergesKeepCut(c, kept, MergePass(w, a, b), x);
    } else {
      LongCutIsCut(c, w, 0, x);
    }
  }

  lemma {:induction false} LongPickDiffers(c: Codec, all: Ranks, kept: Ranks, w: Symbols)
    requires Monotone(c) && SameOrder(c, all, kept) && DistinctRanks(kept)
    requires NoEmptySymbol(w) && PicksLong(c, all, w)
    ensures Reduce(all, w) != Reduce(kept, w)
    decreases |w|
  {
    NextPairIsBest(all, w);
    var (a, b) := NextPair(all, w).value;
    var merged := MergePass(w, a, b);
    MergeShortens(w, a, b);
    if Short(c, (a, b)) {
      MergeKeepsNonEmpty(w, a, b);
      SameNext(c, all, kept, w);
      LongPickDiffers(c, all, kept, merged);
    } else {
      var x := LongMergeRemovesCut(c, w, a, b, 0);
      if Cut(Reduce(all, merged), 0, x) {
        ReduceCut(all, merged, x);
      }
      ShortMergesKeepCut(c, kept, w, x);
    }
  }

  /** A piece is cut into the same symbols with and without the dropped merges if and only if the merge loop
      of the JSON tokenizer picks none of them. */
  lemma {:induction false} SameSymbolsIff(c: Codec, t: TokJson, token: string)
    requires Monotone(c)
    ensures Reduce(RanksOf(t.merges), Singles(token)) == Reduce(RanksOf(KeptMerges(c, t)), Singles(token)) <==>
            !PicksLong(c, RanksOf(t.merges), Singles(token))
  {
    var all, kept, w := RanksOf(t.merges), RanksOf(KeptMerges(c, t)), Singles(token);
    KeptOrder(c, t);
    if PicksLong(c, all, w) {
      LongPickDiffers(c, all, kept, w);
    } else {
      SameReduction(c, all, kept, w);
    }
  }

  lemma {:induction false} KeptOrder(c: Codec, t: TokJson)
    ensures SameOrder(c, RanksOf(t.merges), RanksOf(KeptMerges(c, t))) && DistinctRanks(RanksOf(KeptMerges(c, t)))
  {
    DroppingKeepsOrder(c, t.merges, |t.merges|);
    assert t.merges[..|t.merges|] == t.merges;
    RanksAreDistinct(KeptMerges(c, t));
  }

  // ----- pieces for which nothing is missed -------------------------------------------------------------------

  /** Some stretch of `whole` reads `part`. */
  predicate Occurs(part: string, whole: string) {
    exists i, j :: 0 <= i <= j <= |whole| && whole[i..j] == part
  }

  lemma {:induction false} FlatFrom(w: Symbols, i: nat) returns (k: nat)
    requires i <= |w|
    ensures k <= |Flat(w)| && Flat(w)[k..] == Flat(w[i..])
  {
    if i == 0 {
      k := 0;
      assert w[0..] == w;
    } else {
      k := FlatFrom(w[1..], i - 1);
      assert w[1..][i - 1..] == w[i..];
      k := |w[0]| + k;
    }
  }

  lemma {:induction false} PairOccurs(w: Symbols, p: Pair)
    requires Adjacent(w, p)
    ensures Occurs(p.0 + p.1, Flat(w))
  {
    var i :| 0 <= i < |w| - 1 && w[i] == p.0 && w[i + 1] == p.1;
    var k := FlatFrom(w, i);
    var rest := Flat(w[i + 2..]);
    assert w[i..][1..] == w[i + 1..] && w[i + 1..][1..] == w[i + 2..];
    assert Flat(w)[k..] == w[i] + (w[i + 1] + rest);
    assert Flat(w)[k..k + |w[i]| + |w[i + 1]|] == w[i] + w[i + 1];
  }

  /** No dropped merge has its two halves side by side in the piece. */
  predicate Keeps(c: Codec, merges: seq<Pair>, token: string) {
    forall i :: 0 <= i < |merges| ==> Short(c, merges[i]) || !Occurs(merges[i].0 + merges[i].1, token)
  }

  lemma {:induction false} KeptArePicked(c: Codec, merges: seq<Pair>, w: Symbols)
    requires Keeps(c, merges, Flat(w))
    ensures !PicksLong(c, RanksOf(merges), w)
    decreases |w|
  {
    var ranks := RanksOf(merges);
    NextPairIsBest(ranks, w);
    var next := NextPair(ranks, w);
    if next.Some? {
      RanksAreDistinct(merges);
      PairOccurs(w, next.value);
      assert merges[ranks[next.value]] == next.value;
      MergeShortens(w, next.value.0, next.value.1);
      MergeKeepsText(w, next.value.0, next.value.1);
      KeptArePicked(c, merges, MergePass(w, next.value.0, next.value.1));
    }
  }

  lemma {:induction false} ShortTokenKeeps(c: Codec, merges: seq<Pair>, token: string)
    requires Monotone(c) && |c.enc(token)| <= MAX_PIECE
    ensures Keeps(c, merges, token)
  {
    forall i | 0 <= i < |merges| && Occurs(merges[i].0 + merges[i].1, token) ensures Short(c, merges[i]) {
      var m := merges[i];
      var lo, hi :| 0 <= lo <= hi <= |token| && token[lo..hi] == m.0 + m.1;
      assert token[..hi] == token[..lo] + (m.0 + m.1);
      assert token == token[..hi] + token[hi..];
    }
  }

  /** Neither a piece short enough for the file nor one that shows no dropped merge asks for a dropped merge. */
  lemma {:induction false} NothingMissed(c: Codec, merges: seq<Pair>, token: string)
    requires Monotone(c) && (|c.enc(token)| <= MAX_PIECE || Keeps(c, merges, token))
    ensures !PicksLong(c, RanksOf(merges), Singles(token))
  {
    SinglesSpell(token);
    if |c.enc(token)| <= MAX_PIECE {
      ShortTokenKeeps(c, merges, token);
    }
    KeptArePicked(c, merges, Singles(token));
  }

  // ----- a piece for which a merge is missed ------------------------------------------------------------------

  function As(k: nat): (s: string)
    ensures |s| == k && forall i :: 0 <= i < k ==> s[i] == 'a'
  {
    seq(k, i => 'a')
  }

  function Word(k: nat): string {
    "b" + As(k)
  }

  /** The letter `b` takes in one `a` after the other. */
  function Chain(n: nat): (merges: seq<Pair>)
    ensures |merges| == n && forall i :: 0 <= i < n ==> merges[i] == (Word(i), "a")
  {
    seq(n, i requires 0 <= i < n => (Word(i), "a"))
  }

  function Partly(k: nat, n: nat): (w: Symbols)
    requires k <= n
    ensures |w| == n - k + 1 && w[0] == Word(k) && forall i :: 0 < i < |w| ==> w[i] == "a"
  {
    [Word(k)] + seq(n - k, i => "a")
  }

  lemma {:induction false} WordsDiffer(j: nat, k: nat)
    ensures Word(k) != "a" && (Word(j) == Word(k) ==> j == k)
  {
    assert Word(k)[0] == 'b';
    assert |Word(j)| == j + 1 && |Word(k)| == k + 1;
  }

  lemma {:induction false} ChainRanks(n: nat, k: nat)
    ensures (Word(k), "a") in RanksOf(Chain(n)) <==> k < n
    ensures ("a", "a") !in RanksOf(Chain(n))
  {
    if n > 0 {
      assert Chain(n) == Chain(n - 1) + [(Word(n - 1), "a")];
      RanksPush(Chain(n - 1), (Word(n - 1), "a"));
      WordsDiffer(k, n - 1);
      ChainRanks(n - 1, k);
    }
  }

  lemma {:induction false} PassOverAs(w: Symbols, k: nat)
    requires forall i :: 0 <= i < |w| ==> w[i] == "a"
    ensures MergePass(w, Word(k), "a") == w
  {
    if w != [] {
      WordsDiffer(k, k);
      PassOverAs(w[1..], k);
    }
  }

  lemma {:induction false} ChainStep(k: nat, n: nat)
    requires k < n
    ensures NextPair(RanksOf(Chain(n)), Partly(k, n)) == Some((Word(k), "a"))
    ensures MergePass(Partly(k, n), Word(k), "a") == Partly(k + 1, n)
  {
    var ranks, w, p := RanksOf(Chain(n)), Partly(k, n), (Word(k), "a");
    ChainRanks(n, k);
    RanksAreDistinct(Chain(n));
    assert PairAt(w, 0) == p;
    forall q | q in Pairs(w) && q in ranks ensures q == p {
      var i :| 0 <= i < |w| - 1 && PairAt(w, i) == q;
    }
    BestIsUnique(ranks, w, p);
    PassOverAs(w[2..], k);
    assert Word(k) + "a" == Word(k + 1);
  }

  lemma {:induction false} ChainPicksLong(c: Codec, k: nat, n: nat)
    requires k < n && |c.enc(Word(n - 1))| > MAX_PIECE
    ensures PicksLong(c, RanksOf(Chain(n)), Partly(k, n))
    decreases n - k
  {
    ChainStep(k, n);
    if k < n - 1 {
      ChainPicksLong(c, k + 1, n);
    }
  }

  /** A piece whose symbols differ between file and JSON: as soon as `Word(n)` outgrows the length prefix, the
      file has lost the merge that completes `Word(n + 1)`. */
  lemma {:induction false} LongMergeIsMissed(c: Codec, n: nat, vocab: seq<Item>)
    requires Monotone(c) && |c.enc(Word(n))| > MAX_PIECE
    ensures var t := TokJson(vocab, [], Chain(n + 1));
            Reduce(RanksOf(t.merges), Singles(Word(n + 1))) !=
            Reduce(RanksOf(KeptMerges(c, t)), Singles(Word(n + 1)))
  {
    var w, start := Singles(Word(n + 1)), Partly(0, n + 1);
    forall i | 0 <= i < |w| ensures w[i] == start[i] {
    }
    assert w == start;
    ChainPicksLong(c, 0, n + 1);
    SameSymbolsIff(c, TokJson(vocab, [], Chain(n + 1)), Word(n + 1));
  }

  // ----- the same ids ---------------------------------------------------------------------------------------------

  lemma {:induction false} SameIds(a: Tokenizer, b: Tokenizer, token: string)
    requires token in a.vocab || Reduce(a.ranks, Singles(token)) == Reduce(b.ranks, Singles(token))
    requires forall s :: s != "" ==> (s in a.vocab <==> s in b.vocab) && (s in a.vocab ==> a.vocab[s] == b.vocab[s])
    requires token != "" || ("" !in a.vocab && "" !in b.vocab)
    ensures IdsOf(a, SymbolsOf(a, token)) == IdsOf(b, SymbolsOf(b, token))
  {
    var w := SymbolsOf(a, token);
    assert w == SymbolsOf(b, token);
    ReduceIsFinal(a.ranks, Singles(token));
    assert NoEmptySymbol(Singles(token));
    assert NoEmptySymbol(w);
    forall i | 0 <= i < |w| ensures IdsOf(a, w)[i] == IdsOf(b, w)[i] {
      assert w[i] != "";
    }
  }

  /** The file has no entry for the empty content, so the JSON must not have one that is asked for. */
  predicate Askable(t: TokJson, token: string) {
    token != "" || "" !in JsonVocab(t, |Items(t)|)
  }

  /** A piece that is a content of its own, is short enough for the file, or shows no dropped merge. */
  predicate Served(c: Codec, t: TokJson, token: string) {
    token in JsonVocab(t, |Items(t)|) || |c.enc(token)| <= MAX_PIECE || Keeps(c, t.merges, token)
  }

  lemma {:induction false} RestoredAgrees(c: Codec, t: TokJson, id2: map<int, string>, token: string)
    requires Monotone(c) && Unique(Items(t)) && Askable(t, token) && Served(c, t, token)
    ensures IdsOf(Restored(c, t), SymbolsOf(Restored(c, t), token)) ==
            IdsOf(JsonTokenizer(t, id2), SymbolsOf(JsonTokenizer(t, id2), token))
  {
    var bin, json := Restored(c, t), JsonTokenizer(t, id2);
    forall s | s != "" ensures (s in bin.vocab <==> s in json.vocab) && (s in bin.vocab ==> bin.vocab[s] == json.vocab[s]) {
      VocabAgrees(t, s);
    }
    VocabOfHolds(AllContents(Table(t)), |AllContents(Table(t))|);
    if token !in json.vocab {
      NothingMissed(c, t.merges, token);
      SameSymbolsIff(c, t, token);
    }
    SameIds(bin, json, token);
  }

  /** For every merge list, a piece gets the same ids from the exported file and from the JSON it was exported from,
      unless it is no content, longer than the file has room for, and shows a merge the exporter dropped. */
  lemma {:induction false} SameTokens(c: Codec, t: TokJson, sp32: bool, id2: map<int, string>, token: string)
    requires Lawful(c) && Monotone(c) && Exported(c, t, sp32).Ok? && PiecesFit(c, AllContents(Table(t)))
    requires Unique(Items(t)) && Askable(t, token) && Served(c, t, token)
    ensures var bin := Load(c, Exported(c, t, sp32).value);
            && bin.Ok?
            && IdsOf(bin.value.tok, SymbolsOf(bin.value.tok, token)) ==
               IdsOf(JsonTokenizer(t, id2), SymbolsOf(JsonTokenizer(t, id2), token))
  {
    LoadedTokenizer(c, t, sp32);
    RestoredAgrees(c, t, id2, token);
  }

  /** The reverse table is the vocabulary read backwards. */
  ghost predicate Reversed(vocab: map<string, int>, id2: map<int, string>) {
    && (forall s :: s in vocab ==> vocab[s] in id2)
    && (forall i :: i in id2 ==> id2[i] in vocab && vocab[id2[i]] == i)
  }

  lemma {:induction false} JsonContent(t: TokJson, id2: map<int, string>, id: nat)
    requires Unique(Items(t)) && Reversed(JsonVocab(t, |Items(t)|), id2)
    ensures Get(Table(t), id) == if id in id2 then Some(id2[id]) else None
  {
    var vocab, got := JsonVocab(t, |Items(t)|), Get(Table(t), id);
    JsonVocabHolds(t, |Items(t)|);
    if id in id2 {
      TableHolds(t, id2[id], id);
    } else if got.Some? {
      TableHolds(t, got.value, id);
      OneId(t, got.value, id);
    }
  }

  lemma {:induction false} RestoredShows(c: Codec, t: TokJson, id2: map<int, string>, id: nat)
    requires Unique(Items(t)) && Reversed(JsonVocab(t, |Items(t)|), id2)
    ensures Shown(Restored(c, t), id) == Shown(JsonTokenizer(t, id2), id)
  {
    JsonContent(t, id2, id);
    if Get(Table(t), id).Some? {
      GetBelowN(Table(t), id);
    }
  }

  /** Every id shows the same characters from the exported file and from the JSON. */
  lemma {:induction false} SameText(c: Codec, t: TokJson, sp32: bool, id2: map<int, string>, id: nat)
    requires Lawful(c) && Exported(c, t, sp32).Ok? && PiecesFit(c, AllContents(Table(t)))
    requires Unique(Items(t)) && Reversed(JsonVocab(t, |Items(t)|), id2)
    ensures var bin := Load(c, Exported(c, t, sp32).value);
            bin.Ok? && Shown(bin.value.tok, id) == Shown(JsonTokenizer(t, id2), id)
  {
    LoadedTokenizer(c, t, sp32);
    RestoredShows(c, t, id2, id);
  }
}
