/** Byte-pair tokenizer at piece level (tools/chat_v6.py, `BPE._bpe`, `bytes_to_unicode` and
    `BPE.decode`).
 */
module Bpe {
  import opened Basics
  import opened Wire

  type Symbols = seq<string>
  type Pair = (string, string)
  type Ranks = map<Pair, nat>

  // ----- merging ----------------------------------------------------------------------------------

  function Flat(w: Symbols): string {
    if w == [] then "" else w[0] + Flat(w[1..])
  }

  /** One pass over the word: every occurrence of (a, b), taken from the left, becomes one symbol. */
  function MergePass(w: Symbols, a: string, b: string): Symbols
    decreases |w|
  {
    if w == [] then []
    else if |w| >= 2 && w[0] == a && w[1] == b then [a + b] + MergePass(w[2..], a, b)
    else [w[0]] + MergePass(w[1..], a, b)
  }

  predicate Adjacent(w: Symbols, p: Pair) {
    exists i :: 0 <= i < |w| - 1 && w[i] == p.0 && w[i + 1] == p.1
  }

  predicate NoEmptySymbol(w: Symbols) {
    forall i :: 0 <= i < |w| ==> w[i] != ""
  }

  lemma {:induction false} MergeFrom(word: Symbols, a: string, b: string, i: nat)
    requires i < |word|
    ensures i < |word| - 1 && word[i] == a && word[i + 1] == b ==>
              MergePass(word[i..], a, b) == [a + b] + MergePass(word[i + 2..], a, b)
    ensures !(i < |word| - 1 && word[i] == a && word[i + 1] == b) ==>
              MergePass(word[i..], a, b) == [word[i]] + MergePass(word[i + 1..], a, b)
  {
    assert word[i..][1..] == word[i + 1..];
    if i < |word| - 1 {
      assert word[i..][2..] == word[i + 2..];
    }
  }

  method Merge(word: Symbols, a: string, b: string) returns (merged: Symbols)
    ensures merged == MergePass(word, a, b)
  {
    merged := [];
    var i := 0;
    assert word[0..] == word;
    while i < |word|
      invariant 0 <= i <= |word|
      invariant MergePass(word, a, b) == merged + MergePass(word[i..], a, b)
    {
      MergeFrom(word, a, b, i);
      if i < |word| - 1 && word[i] == a && word[i + 1] == b {
        Assoc(merged, [a + b], MergePass(word[i + 2..], a, b));
        merged, i := merged + [a + b], i + 2;
      } else {
        Assoc(merged, [word[i]], MergePass(word[i + 1..], a, b));
        merged, i := merged + [word[i]], i + 1;
      }
    }
  }

  /** A pass loses and invents no text. */
  lemma {:induction false} MergeKeepsText(w: Symbols, a: string, b: string)
    ensures Flat(MergePass(w, a, b)) == Flat(w)
    decreases |w|
  {
    if w != [] {
      if |w| >= 2 && w[0] == a && w[1] == b {
        MergeKeepsText(w[2..], a, b);
        FlatCons(a + b, MergePass(w[2..], a, b));
        assert w[1..][1..] == w[2..];
        assert a + b + Flat(w[2..]) == a + (b + Flat(w[2..]));
      } else {
        MergeKeepsText(w[1..], a, b);
        FlatCons(w[0], MergePass(w[1..], a, b));
      }
    }
  }

  lemma {:induction false} FlatCons(x: string, w: Symbols)
    ensures Flat([x] + w) == x + Flat(w)
  {
    assert ([x] + w)[1..] == w;
  }

  /** A pass over a word that holds the pair makes it shorter, and never longer otherwise. */
  lemma {:induction false} MergeShortens(w: Symbols, a: string, b: string)
    ensures |MergePass(w, a, b)| <= |w|
    ensures Adjacent(w, (a, b)) ==> |MergePass(w, a, b)| < |w|
    decreases |w|
  {
    if w != [] {
      if |w| >= 2 && w[0] == a && w[1] == b {
        MergeShortens(w[2..], a, b);
      } else {
        MergeShortens(w[1..], a, b);
        if Adjacent(w, (a, b)) {
          var i :| 0 <= i < |w| - 1 && w[i] == a && w[i + 1] == b;
          assert w[1..][i - 1] == a && w[1..][i] == b;
        }
      }
    }
  }

  lemma {:induction false} MergeKeepsNonEmpty(w: Symbols, a: string, b: string)
    requires NoEmptySymbol(w)
    ensures NoEmptySymbol(MergePass(w, a, b))
    decreases |w|
  {
    if w != [] {
      if |w| >= 2 && w[0] == a && w[1] == b {
        MergeKeepsNonEmpty(w[2..], a, b);
      } else {
        MergeKeepsNonEmpty(w[1..], a, b);
      }
    }
  }

  /** After a pass no occurrence of its pair is left, not even one made by the pass itself. */
  lemma {:induction false} MergeRemovesPair(w: Symbols, a: string, b: string)
    requires a != "" && b != ""
    ensures !Adjacent(MergePass(w, a, b), (a, b))
    decreases |w|
  {
    var m := MergePass(w, a, b);
    if w != [] {
      var rest := if |w| >= 2 && w[0] == a && w[1] == b then w[2..] else w[1..];
      MergeRemovesPair(rest, a, b);
      assert m[1..] == MergePass(rest, a, b);
    }
  }

  // ----- choosing the pair --------------------------------------------------------------------------

  function PairAt(w: Symbols, i: nat): Pair
    requires i + 1 < |w|
  {
    (w[i], w[i + 1])
  }

  function Pairs(w: Symbols): set<Pair> {
    set i | 0 <= i < |w| - 1 :: PairAt(w, i)
  }

  /** Distinct pairs have distinct ranks. */
  predicate DistinctRanks(ranks: Ranks) {
    forall p, q :: p in ranks && q in ranks && ranks[p] == ranks[q] ==> p == q
  }

  predicate Best(ranks: Ranks, w: Symbols, p: Pair) {
    p in Pairs(w) && p in ranks && forall q :: q in Pairs(w) && q in ranks ==> ranks[p] <= ranks[q]
  }

  predicate AnyRanked(ranks: Ranks, w: Symbols) {
    exists p :: p in Pairs(w) && p in ranks
  }

  /** Of two pairs the one of lower rank; unranked pairs come last. */
  function Better(ranks: Ranks, p: Option<Pair>, q: Pair): Option<Pair> {
    if q !in ranks then p
    else if p.None? || p.value !in ranks || ranks[q] < ranks[p.value] then Some(q)
    else p
  }

  /** The best pair among the first `k` positions. */
  function BestUpTo(ranks: Ranks, w: Symbols, k: nat): (r: Option<Pair>)
    requires k == 0 || k < |w|
    ensures r.Some? ==> r.value in ranks
  {
    if k == 0 then None else Better(ranks, BestUpTo(ranks, w, k - 1), PairAt(w, k - 1))
  }

  lemma {:induction false} BestUpToIsBest(ranks: Ranks, w: Symbols, k: nat)
    requires k == 0 || k < |w|
    ensures var r := BestUpTo(ranks, w, k);
      && (r.Some? ==> exists i :: 0 <= i < k && PairAt(w, i) == r.value)
      && forall i :: 0 <= i < k && PairAt(w, i) in ranks ==> r.Some? && ranks[r.value] <= ranks[PairAt(w, i)]
  {
    if k > 0 {
      BestUpToIsBest(ranks, w, k - 1);
    }
  }

  /** The pair to merge next, None when no adjacent pair is ranked. */
  function NextPair(ranks: Ranks, w: Symbols): Option<Pair> {
    if |w| < 2 then None else BestUpTo(ranks, w, |w| - 1)
  }

  lemma {:induction false} NextPairIsBest(ranks: Ranks, w: Symbols)
    ensures NextPair(ranks, w).Some? <==> AnyRanked(ranks, w)
    ensures NextPair(ranks, w).Some? ==> Best(ranks, w, NextPair(ranks, w).value) && Adjacent(w, NextPair(ranks, w).value)
  {
    if |w| >= 2 {
      BestUpToIsBest(ranks, w, |w| - 1);
      if NextPair(ranks, w).Some? {
        var i :| 0 <= i < |w| - 1 && PairAt(w, i) == NextPair(ranks, w).value;
        assert PairAt(w, i) in Pairs(w);
      }
    }
  }

  // ----- the merge loop -------------------------------------------------------------------------------

  /** Merging until no adjacent pair is ranked; each pass shortens the word. */
  function Reduce(ranks: Ranks, w: Symbols): Symbols
    decreases |w|
  {
    NextPairIsBest(ranks, w);
    match NextPair(ranks, w)
    case None => w
    case Some(p) =>
      MergeShortens(w, p.0, p.1);
      Reduce(ranks, MergePass(w, p.0, p.1))
  }

  /** The result spells the same text and no adjacent pair of it could still be merged. */
  lemma {:induction false} ReduceIsFinal(ranks: Ranks, w: Symbols)
    ensures Flat(Reduce(ranks, w)) == Flat(w)
    ensures !AnyRanked(ranks, Reduce(ranks, w))
    ensures |Reduce(ranks, w)| <= |w|
    ensures NoEmptySymbol(w) ==> NoEmptySymbol(Reduce(ranks, w))
    decreases |w|
  {
    NextPairIsBest(ranks, w);
    var np := NextPair(ranks, w);
    if np.Some? {
      var p := np.value;
      MergeShortens(w, p.0, p.1);
      MergeKeepsText(w, p.0, p.1);
      if NoEmptySymbol(w) {
        MergeKeepsNonEmpty(w, p.0, p.1);
      }
      ReduceIsFinal(ranks, MergePass(w, p.0, p.1));
    }
  }

  function Singles(token: string): (w: Symbols)
    ensures |w| == |token|
    ensures forall i :: 0 <= i < |w| ==> w[i] == [token[i]]
  {
    seq(|token|, i requires 0 <= i < |token| => [token[i]])
  }

  lemma {:induction false} SinglesSpell(token: string)
    ensures Flat(Singles(token)) == token
  {
    if token != "" {
      assert Singles(token)[1..] == Singles(token[1..]);
      SinglesSpell(token[1..]);
    }
  }

  datatype Tokenizer = Tokenizer(vocab: map<string, int>, id2: map<int, string>, ranks: Ranks)

  function IdOf(t: Tokenizer, s: string): int {
    if s in t.vocab then t.vocab[s] else 0
  }

  function IdsOf(t: Tokenizer, w: Symbols): (ids: seq<int>)
    ensures |ids| == |w|
  {
    seq(|w|, i requires 0 <= i < |w| => IdOf(t, w[i]))
  }

  /** The symbols a piece is cut into. */
  function SymbolsOf(t: Tokenizer, token: string): Symbols {
    if token in t.vocab then [token] else Reduce(t.ranks, Singles(token))
  }

  method LowestPair(ranks: Ranks, word: Symbols, pairs: set<Pair>) returns (p: Pair)
    requires pairs == Pairs(word) && pairs != {}
    ensures p in pairs
    ensures p in ranks <==> AnyRanked(ranks, word)
    ensures p in ranks ==> Best(ranks, word, p)
  {
    p :| p in pairs;
    var left := pairs - {p};
    while left != {}
      invariant p in pairs && left <= pairs
      invariant forall q :: q in pairs - left && q in ranks ==> p in ranks && ranks[p] <= ranks[q]
      decreases left
    {
      var q :| q in left;
      left := left - {q};
      if q in ranks && (p !in ranks || ranks[q] < ranks[p]) {
        p := q;
      }
    }
  }

  lemma {:induction false} BestIsUnique(ranks: Ranks, w: Symbols, p: Pair)
    requires DistinctRanks(ranks) && Best(ranks, w, p)
    ensures NextPair(ranks, w) == Some(p)
  {
    assert AnyRanked(ranks, w);
    NextPairIsBest(ranks, w);
    var q := NextPair(ranks, w).value;
    assert ranks[p] <= ranks[q] && ranks[q] <= ranks[p];
  }

  /** Ranks as the constructor numbers a merge list; a repeated pair keeps its last number. */
  function RanksOf(merges: seq<Pair>): Ranks {
    if merges == [] then map[]
    else RanksOf(merges[..|merges| - 1])[merges[|merges| - 1] := |merges| - 1]
  }

  lemma {:induction false} RanksAreDistinct(merges: seq<Pair>)
    ensures DistinctRanks(RanksOf(merges))
    ensures forall p :: p in RanksOf(merges) ==> RanksOf(merges)[p] < |merges| && merges[RanksOf(merges)[p]] == p
  {
    if merges != [] {
      RanksAreDistinct(merges[..|merges| - 1]);
    }
  }

  /** The tokenizer loop: whatever order the set of pairs is searched in, the ids are those of the
      fully merged word. */
  method Tokenize(t: Tokenizer, ghost merges: seq<Pair>, token: string) returns (ids: seq<int>)
    requires t.ranks == RanksOf(merges)
    ensures ids == IdsOf(t, SymbolsOf(t, token))
  {
    RanksAreDistinct(merges);
    if token in t.vocab {
      return [t.vocab[token]];
    }
    var word := Singles(token);
    var pairs := Pairs(word);
    while pairs != {}
      invariant pairs == Pairs(word)
      invariant Reduce(t.ranks, word) == Reduce(t.ranks, Singles(token))
      decreases |word|
    {
      var bigram := LowestPair(t.ranks, word, pairs);
      if bigram !in t.ranks {
        NextPairIsBest(t.ranks, word);
        break;
      }
      BestIsUnique(t.ranks, word, bigram);
      NextPairIsBest(t.ranks, word);
      MergeShortens(word, bigram.0, bigram.1);
      word := Merge(word, bigram.0, bigram.1);
      pairs := Pairs(word);
    }
    NextPairIsBest(t.ranks, word);
    assert Reduce(t.ranks, word) == word;
    ids := IdsOf(t, word);
  }

  // ----- the byte alphabet ----------------------------------------------------------------------------

  /** Bytes that stand for themselves. */
  predicate Printable(b: byte) {
    0x21 <= b < 0x7F || 0xA1 <= b < 0xAD || 0xAE <= b
  }

  /** How many bytes below `b` do not stand for themselves. */
  function Moved(b: int): int
    requires 0 <= b <= 256
  {
    if b <= 0x21 then b else if b <= 0x7F then 0x21 else if b <= 0xA1 then 0x21 + (b - 0x7F)
    else if b <= 0xAD then 0x43 else 0x44
  }

  /** The code point a byte is written as: itself, or the next free one from 256 on. */
  function CodeOf(b: byte): int {
    if Printable(b) then b else 256 + Moved(b)
  }

  function CharOf(b: byte): char {
    CodeOf(b) as char
  }

  const SPACE_MARK: char := '\U{0120}'

  function ByteOf(c: char): Option<byte> {
    var n := c as int;
    if n < 256 && Printable(n) then Some(n)
    else if 256 <= n < 256 + 0x21 then Some(n - 256)
    else if 256 + 0x21 <= n < 256 + 0x43 then Some(n - 256 - 0x21 + 0x7F)
    else if n == 256 + 0x43 then Some(0xAD)
    else None
  }

  /** The alphabet is one to one, and only the blank is written as the space mark. */
  lemma {:induction false} AlphabetIsInvertible(b: byte)
    ensures ByteOf(CharOf(b)) == Some(b)
    ensures CharOf(b) == SPACE_MARK <==> b == 0x20
  {
  }

  function Range(lo: byte, hi: int): (r: seq<byte>)
    requires lo <= hi <= 256
    ensures |r| == hi - lo
    ensures forall i :: 0 <= i < |r| ==> r[i] == lo + i
  {
    seq(hi - lo, i requires 0 <= i < hi - lo => lo + i)
  }

  lemma {:induction false} RangeHolds(lo: byte, hi: int, b: byte)
    requires lo <= hi <= 256
    ensures b in Range(lo, hi) <==> lo <= b < hi
  {
    if lo <= b < hi {
      assert Range(lo, hi)[b - lo] == b;
    }
  }

  /** The table of the byte alphabet, built by walking the bytes and handing out fresh code points. */
  method BytesToUnicode() returns (table: map<byte, char>)
    ensures forall b: byte :: b in table && table[b] == CharOf(b)
  {
    var bs: seq<byte> := Range(0x21, 0x7F) + Range(0xA1, 0xAD) + Range(0xAE, 0x100);
    forall b: byte ensures b in bs <==> Printable(b) {
      RangeHolds(0x21, 0x7F, b);
      RangeHolds(0xA1, 0xAD, b);
      RangeHolds(0xAE, 0x100, b);
    }
    var cs: seq<int> := bs;
    var n, b: int := 0, 0;
    while b < 256
      invariant 0 <= b <= 256 && n == Moved(b)
      invariant |bs| == |cs| && forall k :: 0 <= k < |bs| ==> cs[k] == CodeOf(bs[k])
      invariant forall x: byte :: x in bs <==> Printable(x) || x < b
    {
      if b !in bs {
        bs, cs, n := bs + [b], cs + [256 + n], n + 1;
      }
      b := b + 1;
    }
    table := map[];
    var k := 0;
    while k < |bs|
      invariant 0 <= k <= |bs|
      invariant forall x: byte :: x in bs
      invariant forall x :: x in table ==> table[x] == CharOf(x)
      invariant forall j :: 0 <= j < k ==> bs[j] in table
    {
      table := table[bs[k] := cs[k] as char];
      k := k + 1;
    }
    forall x: byte ensures x in table {
      assert x in bs;
    }
  }

  /** A byte string in the alphabet: what `encode` hands to the merge loop. */
  function Spell(bs: bytes): (s: string)
    ensures |s| == |bs|
  {
    if bs == [] then "" else [CharOf(bs[0])] + Spell(bs[1..])
  }

  lemma {:induction false} SpellAppend(a: bytes, b: bytes)
    ensures Spell(a + b) == Spell(a) + Spell(b)
  {
    if a == [] {
      assert a + b == b;
    } else {
      assert (a + b)[1..] == a[1..] + b;
      SpellAppend(a[1..], b);
    }
  }

  // ----- decoding ---------------------------------------------------------------------------------------

  predicate Special(s: string) {
    || (|s| >= 2 && s[..2] == "<|" && s[|s| - 2..] == "|>")
    || s in ["<s>", "</s>", "<unk>", "<pad>"]
  }

  /** The characters one id contributes: none for unknown, empty and special pieces. */
  function Shown(t: Tokenizer, id: int): string {
    if id !in t.id2 || Special(t.id2[id]) then "" else t.id2[id]
  }

  function ShownAll(t: Tokenizer, ids: seq<int>): string {
    if ids == [] then "" else Shown(t, ids[0]) + ShownAll(t, ids[1..])
  }

  type Utf8 = bytes -> string

  function Flush(utf8: Utf8, buf: bytes): string {
    if buf == [] then "" else utf8(buf)
  }

  /** Text of a run of characters behind `buf` pending bytes. */
  function Render(utf8: Utf8, buf: bytes, cs: string): string
    decreases |cs|
  {
    if cs == "" then Flush(utf8, buf)
    else if cs[0] == SPACE_MARK then Flush(utf8, buf) + " " + Render(utf8, [], cs[1..])
    else match ByteOf(cs[0])
      case Some(b) => Render(utf8, buf + [b], cs[1..])
      case None => Flush(utf8, buf) + [cs[0]] + Render(utf8, [], cs[1..])
  }

  method DecodePiece(utf8: Utf8, s: string, buf0: bytes, text0: string) returns (buf: bytes, text: string)
    ensures forall more :: text + Render(utf8, buf, more) == text0 + Render(utf8, buf0, s + more)
  {
    buf, text := buf0, text0;
    var i := 0;
    assert s[0..] == s;
    while i < |s|
      invariant 0 <= i <= |s|
      invariant forall more :: text + Render(utf8, buf, s[i..] + more) == text0 + Render(utf8, buf0, s + more)
    {
      ghost var b0, t0 := buf, text;
      if s[i] == SPACE_MARK {
        text, buf := text + Flush(utf8, buf) + " ", [];
      } else if ByteOf(s[i]).Some? {
        buf := buf + [ByteOf(s[i]).value];
      } else {
        text, buf := text + Flush(utf8, buf) + [s[i]], [];
      }
      forall more ensures text + Render(utf8, buf, s[i + 1..] + more) == t0 + Render(utf8, b0, s[i..] + more) {
        var cs := s[i..] + more;
        assert cs[1..] == s[i + 1..] + more;
      }
      i := i + 1;
    }
    forall more ensures text + Render(utf8, buf, more) == text0 + Render(utf8, buf0, s + more) {
      assert s[i..] + more == more;
    }
  }

  method Decode(t: Tokenizer, utf8: Utf8, ids: seq<int>) returns (text: string)
    ensures text == Render(utf8, [], ShownAll(t, ids))
  {
    text := "";
    var buf: bytes := [];
    var i := 0;
    assert ids[0..] == ids;
    while i < |ids|
      invariant 0 <= i <= |ids|
      invariant text + Render(utf8, buf, ShownAll(t, ids[i..])) == Render(utf8, [], ShownAll(t, ids))
    {
      ghost var rest := ShownAll(t, ids[i + 1..]);
      assert ids[i..][1..] == ids[i + 1..];
      assert ShownAll(t, ids[i..]) == Shown(t, ids[i]) + rest;
      if ids[i] in t.id2 && t.id2[ids[i]] != "" && !Special(t.id2[ids[i]]) {
        buf, text := DecodePiece(utf8, t.id2[ids[i]], buf, text);
      } else {
        assert Shown(t, ids[i]) + rest == rest;
      }
      i := i + 1;
    }
    assert ids[i..] == [];
    text := text + Flush(utf8, buf);
  }

  predicate CutAt(utf8: Utf8, a: bytes, b: bytes) {
    utf8(a + [0x20] + b) == utf8(a) + " " + utf8(b)
  }

  /** An ASCII blank always ends a UTF-8 sequence, so decoding may be cut around it. */
  ghost predicate CutsAtBlanks(utf8: Utf8) {
    utf8([]) == "" && forall a, b :: CutAt(utf8, a, b)
  }

  lemma {:induction false} RenderFirst(utf8: Utf8, buf: bytes, bs: bytes)
    requires bs != []
    ensures Render(utf8, buf, Spell(bs)) ==
            if bs[0] == 0x20 then Flush(utf8, buf) + " " + Render(utf8, [], Spell(bs[1..]))
            else Render(utf8, buf + [bs[0]], Spell(bs[1..]))
  {
    AlphabetIsInvertible(bs[0]);
    var cs := Spell(bs);
    assert cs[1..] == Spell(bs[1..]) && cs[0] == CharOf(bs[0]);
  }

  lemma {:induction false} RenderSpelled(utf8: Utf8, buf: bytes, bs: bytes)
    requires CutsAtBlanks(utf8)
    ensures Render(utf8, buf, Spell(bs)) == utf8(buf + bs)
    decreases |bs|
  {
    if bs == [] {
      assert buf + bs == buf;
    } else {
      var first, rest := bs[0], bs[1..];
      RenderFirst(utf8, buf, bs);
      assert buf + bs == buf + [first] + rest;
      if first == 0x20 {
        RenderSpelled(utf8, [], rest);
        assert [] + rest == rest;
        assert CutAt(utf8, buf, rest);
      } else {
        RenderSpelled(utf8, buf + [first], rest);
      }
    }
  }

  /** Ids are distinct, and the reverse table is the vocabulary read backwards. */
  ghost predicate Invertible(t: Tokenizer) {
    && (forall s, s' :: s in t.vocab && s' in t.vocab && t.vocab[s] == t.vocab[s'] ==> s == s')
    && (forall s :: s in t.vocab ==> t.vocab[s] in t.id2)
    && (forall i :: i in t.id2 ==> t.id2[i] in t.vocab && t.vocab[t.id2[i]] == i)
  }

  ghost predicate Ordinary(t: Tokenizer, w: Symbols) {
    forall i :: 0 <= i < |w| ==> w[i] in t.vocab && !Special(w[i])
  }

  lemma {:induction false} IdsShowSymbols(t: Tokenizer, w: Symbols)
    requires Invertible(t) && Ordinary(t, w)
    ensures ShownAll(t, IdsOf(t, w)) == Flat(w)
  {
    if w != [] {
      assert IdsOf(t, w)[1..] == IdsOf(t, w[1..]);
      var id := t.vocab[w[0]];
      assert id in t.id2 && t.vocab[t.id2[id]] == id;
      assert t.id2[id] == w[0];
      IdsShowSymbols(t, w[1..]);
    }
  }

  lemma {:induction false} SymbolsSpell(t: Tokenizer, token: string)
    ensures Flat(SymbolsOf(t, token)) == token
  {
    if token in t.vocab {
      FlatCons(token, []);
    } else {
      SinglesSpell(token);
      ReduceIsFinal(t.ranks, Singles(token));
    }
  }

  // ----- whole texts --------------------------------------------------------------------------------------

  function EncodeAll(t: Tokenizer, pieces: seq<bytes>): seq<int> {
    if pieces == [] then [] else IdsOf(t, SymbolsOf(t, Spell(pieces[0]))) + EncodeAll(t, pieces[1..])
  }

  function Joined(pieces: seq<bytes>): bytes {
    if pieces == [] then [] else pieces[0] + Joined(pieces[1..])
  }

  ghost predicate Covered(t: Tokenizer, pieces: seq<bytes>) {
    forall i :: 0 <= i < |pieces| ==> Ordinary(t, SymbolsOf(t, Spell(pieces[i])))
  }

  lemma {:induction false} ShownAppend(t: Tokenizer, a: seq<int>, b: seq<int>)
    ensures ShownAll(t, a + b) == ShownAll(t, a) + ShownAll(t, b)
  {
    if a == [] {
      assert a + b == b;
    } else {
      assert (a + b)[1..] == a[1..] + b;
      ShownAppend(t, a[1..], b);
    }
  }

  lemma {:induction false} EncodedShows(t: Tokenizer, pieces: seq<bytes>)
    requires Invertible(t) && Covered(t, pieces)
    ensures ShownAll(t, EncodeAll(t, pieces)) == Spell(Joined(pieces))
  {
    if pieces != [] {
      var w := SymbolsOf(t, Spell(pieces[0]));
      IdsShowSymbols(t, w);
      SymbolsSpell(t, Spell(pieces[0]));
      EncodedShows(t, pieces[1..]);
      ShownAppend(t, IdsOf(t, w), EncodeAll(t, pieces[1..]));
      SpellAppend(pieces[0], Joined(pieces[1..]));
    }
  }

  /** Decoding the ids of any list of pieces gives back the text of their bytes. */
  lemma {:induction false} DecodeInvertsEncode(t: Tokenizer, utf8: Utf8, pieces: seq<bytes>)
    requires CutsAtBlanks(utf8) && Invertible(t) && Covered(t, pieces)
    ensures Render(utf8, [], ShownAll(t, EncodeAll(t, pieces))) == utf8(Joined(pieces))
  {
    EncodedShows(t, pieces);
    RenderSpelled(utf8, [], Joined(pieces));
    assert [] + Joined(pieces) == Joined(pieces);
  }
}
