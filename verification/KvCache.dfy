/** Incremental inference with a key/value cache (tools/chat_v6.py, `forward_layer` and `generate`).

    The numeric kernels (projections, norms, rotation, score, exponential, unembedding) are
    uninterpreted functions of one position.  What the model keeps is which positions, which
    rotation rows and which cache entries each of them is applied to, and the causal mask,
    which gives masked keys the softmax weight 0.
 */
module KvCache {
  import opened Basics

  type Vec = seq<real>
  type Heads = seq<Vec>
  type Token = nat

  /** Rows of the rotation table; positions past it are left unrotated. */
  const ROPE_TABLE_CAP: nat := 2048

  /** One transformer block.  `finish` is everything after attention: sub-norm, output
      projection, residual and feed-forward, all of them position by position. */
  datatype Block = Block(query: Vec -> Heads, key: Vec -> Heads, value: Vec -> Heads,
                         finish: (Vec, Heads) -> Vec)

  /** `weight(q, k)` is the exponential of the scaled score, `blend(q, k, v, c)` that weight times
      component `c` of the value and `ratio` the final division of the softmax.  `pick` is the
      choice from the logits and the token history (penalties, forbidden ids, argmax): with
      temperature 0 it is a function of the two. */
  datatype Model = Model(embed: Token -> Vec, blocks: seq<Block>, rope: (nat, Heads) -> Heads,
                         weight: (Vec, Vec) -> real, blend: (Vec, Vec, Vec, nat) -> real,
                         ratio: (real, real) -> real,
                         heads: nat, kvHeads: nat, headDim: nat,
                         unembed: Vec -> Vec, pick: (Vec, seq<Token>) -> Token)

  /** What the code's reshapes demand of the head counts. */
  predicate HeadsFit(m: Model) {
    0 < m.kvHeads <= m.heads && m.heads % m.kvHeads == 0
  }

  // ----- attention -----------------------------------------------------------------------

  function Part(x: Heads, g: nat): Vec {
    if g < |x| then x[g] else []
  }

  /** Sum of the weights of all keys.  The mask sends the score of a key after position `p` to
      minus infinity, so that key adds 0. */
  function MaskedMass(m: Model, q: Vec, ks: seq<Heads>, g: nat, p: nat): real {
    if ks == [] then 0.0
    else
      var n := |ks| - 1;
      MaskedMass(m, q, ks[..n], g, p) + if n <= p then m.weight(q, Part(ks[n], g)) else 0.0
  }

  function MaskedSum(m: Model, q: Vec, ks: seq<Heads>, vs: seq<Heads>, g: nat, c: nat, p: nat): real
    requires |ks| == |vs|
  {
    if ks == [] then 0.0
    else
      var n := |ks| - 1;
      MaskedSum(m, q, ks[..n], vs[..n], g, c, p)
      + if n <= p then m.blend(q, Part(ks[n], g), Part(vs[n], g), c) else 0.0
  }

  /** Query heads that share one key/value head. */
  function Sharing(m: Model): (r: nat)
    requires HeadsFit(m)
    ensures r >= 1
  {
    assert m.heads / m.kvHeads >= 1 by {
      assert m.heads == m.kvHeads * (m.heads / m.kvHeads);
    }
    m.heads / m.kvHeads
  }

  function AttendHead(m: Model, q: Vec, ks: seq<Heads>, vs: seq<Heads>, g: nat, p: nat): Vec
    requires |ks| == |vs|
  {
    var mass := MaskedMass(m, q, ks, g, p);
    seq(m.headDim, c requires 0 <= c < m.headDim => m.ratio(MaskedSum(m, q, ks, vs, g, c, p), mass))
  }

  /** The attention row of the query at global position `p` over all the keys present. */
  function MaskedAttend(m: Model, q: Heads, ks: seq<Heads>, vs: seq<Heads>, p: nat): Heads
    requires HeadsFit(m) && |ks| == |vs|
  {
    var rep := Sharing(m);
    seq(m.heads, hq requires 0 <= hq < m.heads => AttendHead(m, Part(q, hq), ks, vs, hq / rep, p))
  }

  // ----- one layer -----------------------------------------------------------------------

  /** Rotation as the code applies it: the first rows through the table, the rest untouched. */
  function RotateRows(m: Model, xs: seq<Heads>, start: nat): (rs: seq<Heads>)
    ensures |rs| == |xs|
  {
    if start < ROPE_TABLE_CAP then
      var nrot := if |xs| <= ROPE_TABLE_CAP - start then |xs| else ROPE_TABLE_CAP - start;
      seq(nrot, i requires 0 <= i < nrot => m.rope(start + i, xs[i])) + xs[nrot..]
    else xs
  }

  function LayerKeys(m: Model, b: Block, h: seq<Vec>, start: nat): (ks: seq<Heads>)
    ensures |ks| == |h|
  {
    RotateRows(m, seq(|h|, i requires 0 <= i < |h| => b.key(h[i])), start)
  }

  function LayerValues(b: Block, h: seq<Vec>): (vs: seq<Heads>)
    ensures |vs| == |h|
  {
    seq(|h|, i requires 0 <= i < |h| => b.value(h[i]))
  }

  /** Output rows of one layer, given the cache with the new keys and values already appended. */
  function LayerOut(m: Model, b: Block, h: seq<Vec>, ks: seq<Heads>, vs: seq<Heads>, start: nat): (out: seq<Vec>)
    requires HeadsFit(m) && |ks| == |vs|
    ensures |out| == |h|
  {
    var qs := RotateRows(m, seq(|h|, i requires 0 <= i < |h| => b.query(h[i])), start);
    seq(|h|, i requires 0 <= i < |h| =>
      b.finish(h[i], MaskedAttend(m, qs[i], ks, vs, start + i)))
  }

  // ----- full prefill from empty caches ----------------------------------------------------

  function EmbedRows(m: Model, toks: seq<Token>): (h: seq<Vec>)
    ensures |h| == |toks|
  {
    seq(|toks|, i requires 0 <= i < |toks| => m.embed(toks[i]))
  }

  /** One layer over a whole batch whose cache starts empty. */
  function BatchLayer(m: Model, b: Block, h: seq<Vec>): (out: seq<Vec>)
    requires HeadsFit(m)
    ensures |out| == |h|
  {
    LayerOut(m, b, h, LayerKeys(m, b, h, 0), LayerValues(b, h), 0)
  }

  /** Hidden rows after `l` layers when all of `toks` goes through empty caches in one batch. */
  function PrefillHidden(m: Model, toks: seq<Token>, l: nat): (h: seq<Vec>)
    requires HeadsFit(m) && l <= |m.blocks|
    ensures |h| == |toks|
  {
    if l == 0 then EmbedRows(m, toks)
    else BatchLayer(m, m.blocks[l - 1], PrefillHidden(m, toks, l - 1))
  }

  function PrefillKeys(m: Model, toks: seq<Token>, l: nat): (ks: seq<Heads>)
    requires HeadsFit(m) && l < |m.blocks|
    ensures |ks| == |toks|
  {
    LayerKeys(m, m.blocks[l], PrefillHidden(m, toks, l), 0)
  }

  function PrefillValues(m: Model, toks: seq<Token>, l: nat): (vs: seq<Heads>)
    requires HeadsFit(m) && l < |m.blocks|
    ensures |vs| == |toks|
  {
    LayerValues(m.blocks[l], PrefillHidden(m, toks, l))
  }

  /** The last hidden row of a full prefill over `toks`. */
  function PrefillLast(m: Model, toks: seq<Token>): Vec
    requires HeadsFit(m) && toks != []
  {
    PrefillHidden(m, toks, |m.blocks|)[|toks| - 1]
  }

  /** The token a full prefill over `toks` would pick next. */
  function PrefillPick(m: Model, toks: seq<Token>): Token
    requires HeadsFit(m) && toks != []
  {
    m.pick(m.unembed(PrefillLast(m, toks)), toks)
  }

  /** Every token of `out` is the pick of a full prefill over the prompt and what came before it. */
  predicate PicksOfPrefill(m: Model, ids: seq<Token>, out: seq<Token>)
    requires HeadsFit(m) && ids != []
  {
    forall k :: 0 <= k < |out| ==> out[k] == PrefillPick(m, ids + out[..k])
  }

  // ----- position-by-position facts ---------------------------------------------------------

  function RotateAt(m: Model, p: nat, x: Heads): Heads {
    if p < ROPE_TABLE_CAP then m.rope(p, x) else x
  }

  /** The table split is the same as rotating each row by its own global position, on both
      sides of the cap and for batches that straddle it. */
  lemma {:induction false} RotateRowsPointwise(m: Model, xs: seq<Heads>, start: nat, i: nat)
    requires i < |xs|
    ensures RotateRows(m, xs, start)[i] == RotateAt(m, start + i, xs[i])
  {
  }

  lemma {:induction false} LayerKeysAt(m: Model, b: Block, h: seq<Vec>, start: nat, i: nat)
    requires i < |h|
    ensures LayerKeys(m, b, h, start)[i] == RotateAt(m, start + i, b.key(h[i]))
  {
    RotateRowsPointwise(m, seq(|h|, j requires 0 <= j < |h| => b.key(h[j])), start, i);
  }

  // Attention without a mask over exactly the keys and values given: the reference for the mask.

  function Mass(m: Model, q: Vec, ks: seq<Heads>, g: nat): real {
    if ks == [] then 0.0
    else Mass(m, q, ks[..|ks| - 1], g) + m.weight(q, Part(ks[|ks| - 1], g))
  }

  function Sum(m: Model, q: Vec, ks: seq<Heads>, vs: seq<Heads>, g: nat, c: nat): real
    requires |ks| == |vs|
  {
    if ks == [] then 0.0
    else
      var n := |ks| - 1;
      Sum(m, q, ks[..n], vs[..n], g, c) + m.blend(q, Part(ks[n], g), Part(vs[n], g), c)
  }

  function PlainHead(m: Model, q: Vec, ks: seq<Heads>, vs: seq<Heads>, g: nat): Vec
    requires |ks| == |vs|
  {
    var mass := Mass(m, q, ks, g);
    seq(m.headDim, c requires 0 <= c < m.headDim => m.ratio(Sum(m, q, ks, vs, g, c), mass))
  }

  function PlainAttend(m: Model, q: Heads, ks: seq<Heads>, vs: seq<Heads>): Heads
    requires HeadsFit(m) && |ks| == |vs|
  {
    var rep := Sharing(m);
    seq(m.heads, hq requires 0 <= hq < m.heads => PlainHead(m, Part(q, hq), ks, vs, hq / rep))
  }

  lemma {:induction false} MaskKeepsPrefix(m: Model, q: Vec, ks: seq<Heads>, vs: seq<Heads>, g: nat, c: nat, p: nat)
    requires |ks| == |vs|
    ensures
      var k := if p < |ks| then p + 1 else |ks|;
      && MaskedMass(m, q, ks, g, p) == Mass(m, q, ks[..k], g)
      && MaskedSum(m, q, ks, vs, g, c, p) == Sum(m, q, ks[..k], vs[..k], g, c)
  {
    if ks != [] {
      var n := |ks| - 1;
      MaskKeepsPrefix(m, q, ks[..n], vs[..n], g, c, p);
      if n <= p {
        assert ks[..n][..n] == ks[..n] && vs[..n][..n] == vs[..n];
        assert ks[..n + 1] == ks && vs[..n + 1] == vs;
      } else {
        assert ks[..n][..p + 1] == ks[..p + 1] && vs[..n][..p + 1] == vs[..p + 1];
      }
    }
  }

  lemma {:induction false} AttendHeadIsPrefix(m: Model, q: Vec, ks: seq<Heads>, vs: seq<Heads>, g: nat, p: nat)
    requires |ks| == |vs| && p < |ks|
    ensures AttendHead(m, q, ks, vs, g, p) == PlainHead(m, q, ks[..p + 1], vs[..p + 1], g)
  {
    var a, b := AttendHead(m, q, ks, vs, g, p), PlainHead(m, q, ks[..p + 1], vs[..p + 1], g);
    forall c | 0 <= c < m.headDim ensures a[c] == b[c] {
      MaskKeepsPrefix(m, q, ks, vs, g, c, p);
    }
  }

  /** The causal mask: attention at position `p` is plain attention over the keys and values of
      positions 0 to `p`, its own included. */
  lemma {:induction false} MaskedAttendIsPrefix(m: Model, q: Heads, ks: seq<Heads>, vs: seq<Heads>, p: nat)
    requires HeadsFit(m) && |ks| == |vs| && p < |ks|
    ensures MaskedAttend(m, q, ks, vs, p) == PlainAttend(m, q, ks[..p + 1], vs[..p + 1])
  {
    var a, b := MaskedAttend(m, q, ks, vs, p), PlainAttend(m, q, ks[..p + 1], vs[..p + 1]);
    forall hq | 0 <= hq < m.heads ensures a[hq] == b[hq] {
      AttendHeadIsPrefix(m, Part(q, hq), ks, vs, hq / Sharing(m), p);
    }
  }

  /** The row of `x` at position `p` over the keys and values up to it. */
  function RowAt(m: Model, b: Block, x: Vec, p: nat, ks: seq<Heads>, vs: seq<Heads>): Vec
    requires HeadsFit(m) && |ks| == |vs|
  {
    b.finish(x, PlainAttend(m, RotateAt(m, p, b.query(x)), ks, vs))
  }

  /** One row of a layer, stated for that position alone. */
  lemma {:induction false} LayerOutAt(m: Model, b: Block, h: seq<Vec>, ks: seq<Heads>, vs: seq<Heads>, start: nat, i: nat, p: nat)
    requires HeadsFit(m) && |ks| == |vs| && i < |h| && start + i == p < |ks|
    ensures LayerOut(m, b, h, ks, vs, start)[i] == RowAt(m, b, h[i], p, ks[..p + 1], vs[..p + 1])
  {
    var raw := seq(|h|, j requires 0 <= j < |h| => b.query(h[j]));
    RotateRowsPointwise(m, raw, start, i);
    MaskedAttendIsPrefix(m, RotateRows(m, raw, start)[i], ks, vs, p);
  }

  /** Rows of a layer agree when the position's own row and everything up to it agree. */
  lemma {:induction false} LayerRowAgrees(m: Model, b: Block, h1: seq<Vec>, k1: seq<Heads>, v1: seq<Heads>, s1: nat, i1: nat,
                       h2: seq<Vec>, k2: seq<Heads>, v2: seq<Heads>, s2: nat, i2: nat, p: nat)
    requires HeadsFit(m) && |k1| == |v1| && |k2| == |v2|
    requires i1 < |h1| && i2 < |h2| && s1 + i1 == p == s2 + i2 && p < |k1| && p < |k2|
    requires h1[i1] == h2[i2]
    requires k1[..p + 1] == k2[..p + 1] && v1[..p + 1] == v2[..p + 1]
    ensures LayerOut(m, b, h1, k1, v1, s1)[i1] == LayerOut(m, b, h2, k2, v2, s2)[i2]
  {
    LayerOutAt(m, b, h1, k1, v1, s1, i1, p);
    LayerOutAt(m, b, h2, k2, v2, s2, i2, p);
  }

  /** Keys and values are functions of their own row and global position. */
  lemma {:induction false} CachePrefix(m: Model, b: Block, full: seq<Vec>, n: nat)
    requires n <= |full|
    ensures LayerKeys(m, b, full, 0)[..n] == LayerKeys(m, b, full[..n], 0)
    ensures LayerValues(b, full)[..n] == LayerValues(b, full[..n])
  {
    forall i | 0 <= i < n ensures LayerKeys(m, b, full, 0)[i] == LayerKeys(m, b, full[..n], 0)[i] {
      LayerKeysAt(m, b, full, 0, i);
      LayerKeysAt(m, b, full[..n], 0, i);
    }
  }

  lemma {:induction false} CacheSuffix(m: Model, b: Block, full: seq<Vec>, start: nat)
    requires start <= |full|
    ensures LayerKeys(m, b, full[start..], start) == LayerKeys(m, b, full, 0)[start..]
    ensures LayerValues(b, full[start..]) == LayerValues(b, full)[start..]
  {
    forall i | 0 <= i < |full| - start
      ensures LayerKeys(m, b, full[start..], start)[i] == LayerKeys(m, b, full, 0)[start + i]
    {
      LayerKeysAt(m, b, full[start..], start, i);
      LayerKeysAt(m, b, full, 0, start + i);
    }
  }

  lemma {:induction false} Rejoin<T>(s: seq<T>, n: nat)
    requires n <= |s|
    ensures s[..n] + s[n..] == s
  {
  }

  /** The batch that starts at `start` appends exactly what one batch over everything stores there. */
  lemma {:induction false} CacheAppend(m: Model, b: Block, full: seq<Vec>, start: nat)
    requires start <= |full|
    ensures LayerKeys(m, b, full[..start], 0) + LayerKeys(m, b, full[start..], start) == LayerKeys(m, b, full, 0)
    ensures LayerValues(b, full[..start]) + LayerValues(b, full[start..]) == LayerValues(b, full)
  {
    CachePrefix(m, b, full, start);
    CacheSuffix(m, b, full, start);
    Rejoin(LayerKeys(m, b, full, 0), start);
    Rejoin(LayerValues(b, full), start);
  }

  /** A layer over the first rows only gives the first rows of the layer over all of them. */
  lemma {:induction false} LayerIsCausal(m: Model, b: Block, h: seq<Vec>, n: nat)
    requires HeadsFit(m) && n <= |h|
    ensures BatchLayer(m, b, h)[..n] == BatchLayer(m, b, h[..n])
  {
    var ks, vs := LayerKeys(m, b, h, 0), LayerValues(b, h);
    CachePrefix(m, b, h, n);
    var out, pre := BatchLayer(m, b, h), BatchLayer(m, b, h[..n]);
    forall i | 0 <= i < n ensures out[i] == pre[i] {
      assert ks[..n][..i + 1] == ks[..i + 1] && vs[..n][..i + 1] == vs[..i + 1];
      LayerRowAgrees(m, b, h, ks, vs, 0, i, h[..n], ks[..n], vs[..n], 0, i, i);
    }
  }

  /** The rows of a later batch are the tail of the rows of one batch over everything. */
  lemma {:induction false} LayerTail(m: Model, b: Block, h: seq<Vec>, start: nat)
    requires HeadsFit(m) && start <= |h|
    ensures LayerOut(m, b, h[start..], LayerKeys(m, b, h, 0), LayerValues(b, h), start)
         == BatchLayer(m, b, h)[start..]
  {
    var ks, vs := LayerKeys(m, b, h, 0), LayerValues(b, h);
    var out, all := LayerOut(m, b, h[start..], ks, vs, start), BatchLayer(m, b, h);
    forall i | 0 <= i < |h| - start ensures out[i] == all[start + i] {
      LayerRowAgrees(m, b, h[start..], ks, vs, start, i, h, ks, vs, 0, start + i, start + i);
    }
  }

  /** Causality: what a prefill computes for the first positions does not depend on later tokens. */
  lemma {:induction false} PrefillIsCausal(m: Model, toks: seq<Token>, n: nat, l: nat)
    requires HeadsFit(m) && n <= |toks| && l <= |m.blocks|
    ensures PrefillHidden(m, toks, l)[..n] == PrefillHidden(m, toks[..n], l)
    decreases l
  {
    if l == 0 {
      assert EmbedRows(m, toks)[..n] == EmbedRows(m, toks[..n]);
    } else {
      PrefillIsCausal(m, toks, n, l - 1);
      CausalStep(m, m.blocks[l - 1], PrefillHidden(m, toks, l - 1), PrefillHidden(m, toks[..n], l - 1), n);
    }
  }

  lemma {:induction false} CausalStep(m: Model, b: Block, h: seq<Vec>, front: seq<Vec>, n: nat)
    requires HeadsFit(m) && n <= |h| && front == h[..n]
    ensures BatchLayer(m, b, h)[..n] == BatchLayer(m, b, front)
  {
    LayerIsCausal(m, b, h, n);
  }

  lemma {:induction false} EmbedTail(m: Model, toks: seq<Token>, start: nat)
    requires HeadsFit(m) && start <= |toks|
    ensures EmbedRows(m, toks[start..]) == PrefillHidden(m, toks, 0)[start..]
  {
    assert EmbedRows(m, toks[start..]) == EmbedRows(m, toks)[start..];
  }

  // The recurrence written for one position at a time, with no batch, no cache and no mask.

  /** What one block makes of the last of `rows`, the hidden rows of positions 0 to |rows| - 1. */
  function BlockRow(m: Model, b: Block, rows: seq<Vec>): Vec
    requires HeadsFit(m) && rows != []
  {
    var i := |rows| - 1;
    b.finish(rows[i],
             PlainAttend(m, RotateAt(m, i, b.query(rows[i])),
                         seq(|rows|, j requires 0 <= j < |rows| => RotateAt(m, j, b.key(rows[j]))),
                         seq(|rows|, j requires 0 <= j < |rows| => b.value(rows[j]))))
  }

  lemma {:induction false} BatchLayerAt(m: Model, b: Block, h: seq<Vec>, i: nat)
    requires HeadsFit(m) && i < |h|
    ensures BatchLayer(m, b, h)[i] == BlockRow(m, b, h[..i + 1])
  {
    var ks, vs, rows := LayerKeys(m, b, h, 0), LayerValues(b, h), h[..i + 1];
    forall j | 0 <= j <= i ensures ks[j] == RotateAt(m, j, b.key(rows[j])) {
      LayerKeysAt(m, b, h, 0, j);
    }
    assert ks[..i + 1] == seq(|rows|, j requires 0 <= j < |rows| => RotateAt(m, j, b.key(rows[j])));
    assert vs[..i + 1] == seq(|rows|, j requires 0 <= j < |rows| => b.value(rows[j]));
    LayerOutAt(m, b, h, ks, vs, 0, i, i);
  }

  function RowHidden(m: Model, toks: seq<Token>, l: nat, i: nat): Vec
    requires HeadsFit(m) && l <= |m.blocks| && i < |toks|
    decreases l, 0
  {
    if l == 0 then m.embed(toks[i])
    else BlockRow(m, m.blocks[l - 1], RowsUpTo(m, toks, l - 1, i + 1))
  }

  function RowsUpTo(m: Model, toks: seq<Token>, l: nat, n: nat): (rows: seq<Vec>)
    requires HeadsFit(m) && l <= |m.blocks| && n <= |toks|
    ensures |rows| == n
    decreases l, 1
  {
    seq(n, i requires 0 <= i < n => RowHidden(m, toks, l, i))
  }

  /** The batched, masked prefill computes the position-by-position recurrence. */
  lemma {:induction false} PrefillIsRowwise(m: Model, toks: seq<Token>, l: nat, i: nat)
    requires HeadsFit(m) && l <= |m.blocks| && i < |toks|
    ensures PrefillHidden(m, toks, l)[i] == RowHidden(m, toks, l, i)
    decreases l, 0
  {
    if l > 0 {
      RowsAreRowwise(m, toks, l - 1, i + 1);
      RowwiseStep(m, m.blocks[l - 1], PrefillHidden(m, toks, l - 1), RowsUpTo(m, toks, l - 1, i + 1), i);
    }
  }

  lemma {:induction false} RowsAreRowwise(m: Model, toks: seq<Token>, l: nat, n: nat)
    requires HeadsFit(m) && l <= |m.blocks| && n <= |toks|
    ensures PrefillHidden(m, toks, l)[..n] == RowsUpTo(m, toks, l, n)
    decreases l, 1
  {
    forall j | 0 <= j < n ensures PrefillHidden(m, toks, l)[j] == RowHidden(m, toks, l, j) {
      PrefillIsRowwise(m, toks, l, j);
    }
  }

  lemma {:induction false} RowwiseStep(m: Model, b: Block, h: seq<Vec>, rows: seq<Vec>, i: nat)
    requires HeadsFit(m) && i < |h| && rows == h[..i + 1]
    ensures BatchLayer(m, b, h)[i] == BlockRow(m, b, rows)
  {
    BatchLayerAt(m, b, h, i);
  }

  /** One incremental layer step on a cache that holds the first `start` positions lands on the
      same rows, keys and values as the prefill over all the tokens. */
  lemma {:induction false} LayerStepIsPrefill(m: Model, toks: seq<Token>, start: nat, l: nat)
    requires HeadsFit(m) && start <= |toks| && l < |m.blocks|
    ensures PrefillKeys(m, toks[..start], l) + LayerKeys(m, m.blocks[l], PrefillHidden(m, toks, l)[start..], start)
         == PrefillKeys(m, toks, l)
    ensures PrefillValues(m, toks[..start], l) + LayerValues(m.blocks[l], PrefillHidden(m, toks, l)[start..])
         == PrefillValues(m, toks, l)
    ensures LayerOut(m, m.blocks[l], PrefillHidden(m, toks, l)[start..],
                     PrefillKeys(m, toks, l), PrefillValues(m, toks, l), start)
         == PrefillHidden(m, toks, l + 1)[start..]
  {
    PrefillIsCausal(m, toks, start, l);
    CacheAppend(m, m.blocks[l], PrefillHidden(m, toks, l), start);
    LayerTail(m, m.blocks[l], PrefillHidden(m, toks, l), start);
  }

  lemma {:induction false} PicksExtend(m: Model, ids: seq<Token>, out: seq<Token>)
    requires HeadsFit(m) && ids != [] && PicksOfPrefill(m, ids, out)
    ensures PicksOfPrefill(m, ids, out + [PrefillPick(m, ids + out)])
  {
    var ext := out + [PrefillPick(m, ids + out)];
    forall k | 0 <= k < |ext| ensures ext[k] == PrefillPick(m, ids + ext[..k]) {
      assert ext[..k] == out[..k];
      assert out[..|out|] == out;
    }
  }

  // ----- the running session ----------------------------------------------------------------

  /** Layer `l` holds the cache of a full prefill over `toks`. */
  ghost predicate LayerCached(m: Model, toks: seq<Token>, l: nat, ks: seq<Heads>, vs: seq<Heads>)
    requires HeadsFit(m) && l < |m.blocks|
  {
    forall k :: Peek(k) ==> ks == PrefillKeys(m, toks, l) && vs == PrefillValues(m, toks, l)
  }

  /** The caches `generate` keeps: for each layer the rotated keys and the values seen so far. */
  class Session {
    const m: Model
    var keys: seq<seq<Heads>>
    var values: seq<seq<Heads>>

    /** Every layer's cache is the cache of a full prefill over `toks`. */
    ghost predicate Caches(toks: seq<Token>)
      reads this
    {
      && HeadsFit(m)
      && |keys| == |values| == |m.blocks|
      && forall l :: 0 <= l < |m.blocks| ==> LayerCached(m, toks, l, keys[l], values[l])
    }

    constructor (m: Model)
      requires HeadsFit(m)
      ensures this.m == m && Caches([])
    {
      this.m := m;
      keys := seq(|m.blocks|, _ => []);
      values := seq(|m.blocks|, _ => []);
    }

    /** Forward of one layer: append this batch's keys and values, then attend over all of them. */
    method ForwardLayer(h: seq<Vec>, l: nat, start: nat) returns (out: seq<Vec>)
      requires HeadsFit(m) && |keys| == |values| == |m.blocks| && l < |m.blocks|
      requires |keys[l]| == |values[l]|
      modifies this
      ensures keys == old(keys)[l := old(keys)[l] + LayerKeys(m, m.blocks[l], h, start)]
      ensures values == old(values)[l := old(values)[l] + LayerValues(m.blocks[l], h)]
      ensures |keys[l]| == |values[l]|
      ensures out == LayerOut(m, m.blocks[l], h, keys[l], values[l], start)
    {
      var b := m.blocks[l];
      var ks, vs := LayerKeys(m, b, h, start), LayerValues(b, h);
      keys := keys[l := keys[l] + ks];
      values := values[l := values[l] + vs];
      out := LayerOut(m, b, h, keys[l], values[l], start);
    }

    /** Takes layer `l` from the cache over `toks[..start]` to the cache over `toks`. */
    method StepLayer(h: seq<Vec>, l: nat, toks: seq<Token>, start: nat) returns (out: seq<Vec>)
      requires HeadsFit(m) && |keys| == |values| == |m.blocks| && l < |m.blocks| && start <= |toks|
      requires LayerCached(m, toks[..start], l, keys[l], values[l])
      requires h == PrefillHidden(m, toks, l)[start..]
      modifies this
      ensures |keys| == |values| == |m.blocks|
      ensures forall j :: 0 <= j < |m.blocks| && j != l ==> keys[j] == old(keys[j]) && values[j] == old(values[j])
      ensures LayerCached(m, toks, l, keys[l], values[l])
      ensures out == PrefillHidden(m, toks, l + 1)[start..]
    {
      assert Peek(0);
      LayerStepIsPrefill(m, toks, start, l);
      out := ForwardLayer(h, l, start);
    }

    /** Feeds the tokens after `start` through every layer. */
    method Forward(toks: seq<Token>, start: nat) returns (h: seq<Vec>)
      requires start <= |toks| && Caches(toks[..start])
      modifies this
      ensures Caches(toks)
      ensures h == PrefillHidden(m, toks, |m.blocks|)[start..]
    {
      h := EmbedRows(m, toks[start..]);
      EmbedTail(m, toks, start);
      ghost var before := toks[..start];
      var l := 0;
      while l < |m.blocks|
        invariant 0 <= l <= |m.blocks| && Mixed(toks, before, l)
        invariant h == PrefillHidden(m, toks, l)[start..]
      {
        h := NextLayer(h, l, toks, start, before);
        l := l + 1;
      }
    }

    /** Layers below `l` hold the cache over `toks`, the others the one over `before`. */
    ghost predicate Mixed(toks: seq<Token>, before: seq<Token>, l: nat)
      reads this
    {
      && HeadsFit(m) && |keys| == |values| == |m.blocks|
      && (forall j :: 0 <= j < |m.blocks| && j < l ==> LayerCached(m, toks, j, keys[j], values[j]))
      && (forall j :: l <= j < |m.blocks| ==> LayerCached(m, before, j, keys[j], values[j]))
    }

    method NextLayer(h: seq<Vec>, l: nat, toks: seq<Token>, start: nat, ghost before: seq<Token>) returns (out: seq<Vec>)
      requires l < |m.blocks| && start <= |toks| && before == toks[..start] && Mixed(toks, before, l)
      requires h == PrefillHidden(m, toks, l)[start..]
      modifies this
      ensures Mixed(toks, before, l + 1) && out == PrefillHidden(m, toks, l + 1)[start..]
    {
      out := StepLayer(h, l, toks, start);
    }

    /** The last row of a batch that ends with the last token. */
    method LastOf(h: seq<Vec>, toks: seq<Token>, start: nat) returns (last: Vec)
      requires HeadsFit(m) && start < |toks| && h == PrefillHidden(m, toks, |m.blocks|)[start..]
      ensures last == PrefillLast(m, toks)
    {
      last := h[|h| - 1];
    }

    /** Prefill of the prompt into the empty caches. */
    method Prefill(ids: seq<Token>) returns (last: Vec)
      requires Caches([]) && ids != []
      modifies this
      ensures Caches(ids)
      ensures last == PrefillLast(m, ids)
    {
      assert ids[..0] == [];
      var h := Forward(ids, 0);
      last := LastOf(h, ids, 0);
    }

    /** Feeds one emitted token at the position after everything fed so far. */
    method Feed(fed: seq<Token>, nxt: Token) returns (last: Vec)
      requires Caches(fed)
      modifies this
      ensures Caches(fed + [nxt])
      ensures last == PrefillLast(m, fed + [nxt])
    {
      assert (fed + [nxt])[..|fed|] == fed;
      var h := Forward(fed + [nxt], |fed|);
      last := LastOf(h, fed + [nxt], |fed|);
    }
  }

  /** Greedy generation.  Each emitted token is the one a full prefill from empty caches over the
      prompt and the tokens emitted before it picks; the loop stops at `eos` or at `maxTokens`;
      and the caches left behind are those of a full prefill over everything that was fed. */
  method Generate(m: Model, ids: seq<Token>, maxTokens: nat, eos: Token)
    returns (out: seq<Token>, s: Session)
    requires HeadsFit(m) && ids != []
    ensures |out| <= maxTokens
    ensures PicksOfPrefill(m, ids, out)
    ensures forall k :: 0 <= k < |out| - 1 ==> out[k] != eos
    ensures |out| < maxTokens ==> out != [] && out[|out| - 1] == eos
    ensures s.m == m
    ensures s.Caches(ids + if out != [] && out[|out| - 1] == eos then out[..|out| - 1] else out)
  {
    s := new Session(m);
    var last := s.Prefill(ids);
    out := [];
    var fed := ids;
    while |out| < maxTokens
      invariant |out| <= maxTokens && fed == ids + out
      invariant s.m == m && s.Caches(fed)
      invariant last == PrefillLast(m, fed)
      invariant PicksOfPrefill(m, ids, out)
      invariant eos !in out
    {
      PicksExtend(m, ids, out);
      var nxt := m.pick(m.unembed(last), fed);
      ghost var emitted := out;
      out := out + [nxt];
      if nxt == eos {
        assert out[..|out| - 1] == emitted;
        return;
      }
      last := s.Feed(fed, nxt);
      fed := fed + [nxt];
    }
  }
}
