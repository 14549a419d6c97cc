/** Ternary weight rows over exact reals: the quantiser (tools/bitfuzzy_moe_recurrent.py, `_row_absmean`,
    `fuzzy_quantize`) and the weight rebuilt from trits and scale (tools/export_no_std.py, `_reconstruct_weight`).
 */
module TernaryRows {

  import opened Basics
  import opened Trits

  const FLOOR := 0.00000001
  const DEADZONE := 0.05
  const TINY := 0.000000000000000000000000000001

  function Max(x: real, y: real): real {
    if x < y then y else x
  }

  function Sign(x: real): trit {
    if x > 0.0 then 1 else if x < 0.0 then -1 else 0
  }

  /** Sum of magnitudes of the first `k` weights. */
  function AbsSum(w: seq<real>, k: nat): (s: real)
    requires k <= |w|
    ensures s >= 0.0
  {
    if k == 0 then 0.0 else AbsSum(w, k - 1) + Abs(w[k - 1])
  }

  function AbsMean(w: seq<real>): real
    requires w != []
  {
    AbsSum(w, |w|) / |w| as real
  }

  function RowScale(w: seq<real>): real
    requires w != []
  {
    Max(AbsMean(w), FLOOR)
  }

  function TritOf(x: real, dead: real): trit {
    if Abs(x) > dead then Sign(x) else 0
  }

  function Ternary(w: seq<real>): (ts: seq<trit>)
    requires w != []
    ensures |ts| == |w|
  {
    seq(|w|, i requires 0 <= i < |w| => TritOf(w[i], DEADZONE * RowScale(w)))
  }

  /** How many of the first `k` trits are not zero. */
  function Count(ts: seq<trit>, k: nat): (c: nat)
    requires k <= |ts|
    ensures c <= k
  {
    if k == 0 then 0 else Count(ts, k - 1) + (if ts[k - 1] == 0 then 0 else 1)
  }

  /** Mean magnitude of the trits. */
  function Density(ts: seq<trit>): real
    requires ts != []
  {
    Count(ts, |ts|) as real / |ts| as real
  }

  function Factor(f: real, scale: real): real {
    if f > 0.0 then scale / Max(f, TINY) else 0.0
  }

  /** A trit times a number. */
  function Times(t: trit, x: real): (r: real)
    ensures r == t as real * x
  {
    if t == 0 then 0.0 else if t == 1 then x else -x
  }

  function Spread(ts: seq<trit>, factor: real): (w: seq<real>)
    ensures |w| == |ts| && forall i :: 0 <= i < |ts| ==> w[i] == Times(ts[i], factor)
  {
    seq(|ts|, i requires 0 <= i < |ts| => Times(ts[i], factor))
  }

  function Rebuilt(ts: seq<trit>, scale: real): (w: seq<real>)
    requires ts != []
    ensures |w| == |ts|
  {
    Spread(ts, Factor(Density(ts), scale))
  }

  // ----- sizes of a rebuilt row -----------------------------------------------------------------------------

  lemma {:induction false} OneMore(c: nat, x: real)
    ensures (c + 1) as real * x == c as real * x + x
  {
  }

  /** `x` added up `c` times. */
  function Repeat(c: nat, x: real): real {
    if c == 0 then 0.0 else Repeat(c - 1, x) + x
  }

  lemma {:induction false} RepeatIsProduct(c: nat, x: real)
    ensures Repeat(c, x) == c as real * x
  {
    if c > 0 {
      RepeatIsProduct(c - 1, x);
      OneMore(c - 1, x);
    }
  }

  lemma {:induction false} SpreadSum(ts: seq<trit>, factor: real, k: nat)
    requires factor >= 0.0 && k <= |ts|
    ensures AbsSum(Spread(ts, factor), k) == Repeat(Count(ts, k), factor)
  {
    if k > 0 {
      SpreadSum(ts, factor, k - 1);
    }
  }

  lemma {:induction false} MeanOfProduct(c: real, n: real, factor: real, sum: real, f: real, mean: real)
    requires n > 0.0 && f == c / n && sum == c * factor && mean == sum / n
    ensures mean == f * factor
  {
  }

  lemma {:induction false} MeanOfRepeat(c: nat, n: nat, factor: real, sum: real, f: real, mean: real)
    requires n > 0 && f == c as real / n as real && sum == Repeat(c, factor) && mean == sum / n as real
    ensures mean == f * factor
  {
    RepeatIsProduct(c, factor);
    MeanOfProduct(c as real, n as real, factor, sum, f, mean);
  }

  lemma {:induction false} SpreadMean(ts: seq<trit>, factor: real, mean: real, f: real)
    requires ts != [] && factor >= 0.0 && mean == AbsMean(Spread(ts, factor)) && f == Density(ts)
    ensures mean == f * factor
  {
    SpreadSum(ts, factor, |ts|);
    MeanOfRepeat(Count(ts, |ts|), |ts|, factor, AbsSum(Spread(ts, factor), |ts|), f, mean);
  }

  predicate AnyTrit(ts: seq<trit>) {
    exists i :: 0 <= i < |ts| && ts[i] != 0
  }

  lemma {:induction false} CountZero(ts: seq<trit>, k: nat)
    requires k <= |ts|
    ensures Count(ts, k) > 0 <==> exists i :: 0 <= i < k && ts[i] != 0
  {
    if k > 0 {
      CountZero(ts, k - 1);
    }
  }

  lemma {:induction false} Quotient(c: real, n: real)
    requires c >= 0.0 && n > 0.0
    ensures c / n >= 0.0 && (c / n > 0.0 <==> c > 0.0) && (c <= n ==> c / n <= 1.0)
  {
  }

  lemma {:induction false} DensityBounds(ts: seq<trit>)
    requires ts != []
    ensures 0.0 <= Density(ts) <= 1.0
    ensures Density(ts) > 0.0 <==> AnyTrit(ts)
  {
    CountZero(ts, |ts|);
    Quotient(Count(ts, |ts|) as real, |ts| as real);
  }

  // ----- what is rebuilt quantises to what it was built from ------------------------------------------------

  lemma {:induction false} FactorFacts(f: real, scale: real, factor: real)
    requires 0.0 < f <= 1.0 && scale > 0.0 && factor == Factor(f, scale)
    ensures factor >= scale
    ensures f >= TINY ==> f * factor == scale
    ensures f < TINY ==> f * factor < scale
  {
    if f >= TINY {
      assert f * (scale / f) == scale;
      AtLeast(f, scale / f, scale);
    } else {
      AtLeast(TINY, factor, scale);
      assert TINY * (scale / TINY) == scale;
      Shrinks(f, TINY, factor);
    }
  }

  lemma {:induction false} AtLeast(f: real, x: real, scale: real)
    requires 0.0 < f <= 1.0 && scale > 0.0 && f * x == scale
    ensures x >= scale
  {
    assert f * scale <= scale;
    if x < scale {
      Shrinks(x, scale, f);
    }
  }

  lemma {:induction false} Shrinks(f: real, g: real, x: real)
    requires f < g && x > 0.0
    ensures f * x < g * x
  {
  }

  /** The scale that comes back from a rebuilt row with a nonzero trit, for any positive scale: exactly the one it was
      built with when that is at least the floor and the row is not thinner than one trit in 10^30. */
  lemma {:induction false} ScaleComesBack(ts: seq<trit>, scale: real)
    requires ts != [] && AnyTrit(ts) && scale > 0.0
    ensures RowScale(Rebuilt(ts, scale)) == scale <==> scale >= FLOOR && (Density(ts) >= TINY || scale == FLOOR)
  {
    var f, factor := Density(ts), Factor(Density(ts), scale);
    DensityBounds(ts);
    FactorFacts(f, scale, factor);
    SpreadMean(ts, factor, AbsMean(Rebuilt(ts, scale)), f);
  }

  lemma {:induction false} MeanBelowFactor(ts: seq<trit>, scale: real, factor: real)
    requires ts != [] && AnyTrit(ts) && scale >= FLOOR && factor == Factor(Density(ts), scale)
    ensures factor > DEADZONE * RowScale(Rebuilt(ts, scale))
  {
    var f := Density(ts);
    DensityBounds(ts);
    FactorFacts(f, scale, factor);
    SpreadMean(ts, factor, AbsMean(Rebuilt(ts, scale)), f);
  }

  lemma {:induction false} TritBack(t: trit, x: real, dead: real)
    requires 0.0 <= dead < x
    ensures TritOf(Times(t, x), dead) == t
  {
  }

  /** The trits that come back from a rebuilt row are those it was built from. */
  lemma {:induction false} TritsComeBack(ts: seq<trit>, scale: real)
    requires ts != [] && AnyTrit(ts) && scale >= FLOOR
    ensures Ternary(Rebuilt(ts, scale)) == ts
  {
    var factor, w := Factor(Density(ts), scale), Rebuilt(ts, scale);
    MeanBelowFactor(ts, scale, factor);
    forall i | 0 <= i < |ts| ensures Ternary(w)[i] == ts[i] {
      TritBack(ts[i], factor, DEADZONE * RowScale(w));
    }
  }

  lemma {:induction false} NoTritRow(ts: seq<trit>, scale: real)
    requires ts != [] && !AnyTrit(ts)
    ensures RowScale(Rebuilt(ts, scale)) == FLOOR && Ternary(Rebuilt(ts, scale)) == ts
  {
    CountZero(ts, |ts|);
    var w := Rebuilt(ts, scale);
    DensityBounds(ts);
    SpreadMean(ts, 0.0, AbsMean(w), 0.0);
  }

  // ----- rows that keep a trit ------------------------------------------------------------------------------

  lemma {:induction false} SomeReaches(w: seq<real>, k: nat, m: real)
    requires 0 < k <= |w| && AbsSum(w, k) >= k as real * m
    ensures exists i :: 0 <= i < k && Abs(w[i]) >= m
    decreases k
  {
    if Abs(w[k - 1]) < m {
      OneMore(k - 1, m);
      assert AbsSum(w, 0) == 0.0;
      if k > 1 {
        SomeReaches(w, k - 1, m);
      }
    }
  }

  /** A row whose mean magnitude reaches the floor keeps at least one trit. */
  lemma {:induction false} MeanKeepsTrit(w: seq<real>)
    requires w != [] && AbsMean(w) >= FLOOR
    ensures AnyTrit(Ternary(w))
  {
    var m := AbsMean(w);
    assert |w| as real * m == AbsSum(w, |w|);
    SomeReaches(w, |w|, m);
    var i :| 0 <= i < |w| && Abs(w[i]) >= m;
    assert Ternary(w)[i] != 0;
  }

  // ----- export after rebuild -------------------------------------------------------------------------------

  datatype Row = Row(trits: seq<trit>, scale: real)

  /** What the exporter records of a row. */
  function Exported(w: seq<real>): (r: Row)
    requires w != []
    ensures |r.trits| == |w|
  {
    Row(Ternary(w), RowScale(w))
  }

  lemma {:induction false} NoTritMeansFloor(w: seq<real>)
    requires w != [] && !AnyTrit(Ternary(w))
    ensures RowScale(w) == FLOOR
  {
    if AbsMean(w) >= FLOOR {
      MeanKeepsTrit(w);
    }
  }

  /** Rebuilding a row from its record and recording it again changes nothing, if and only if the row is not thinner
      than one trit in 10^30 or its scale is the floor. */
  lemma {:induction false} ExportIsStable(w: seq<real>)
    requires w != []
    ensures var r := Exported(w);
            Exported(Rebuilt(r.trits, r.scale)) == r <==>
            !AnyTrit(r.trits) || Density(r.trits) >= TINY || r.scale == FLOOR
  {
    var r := Exported(w);
    if AnyTrit(r.trits) {
      ScaleComesBack(r.trits, r.scale);
      TritsComeBack(r.trits, r.scale);
    } else {
      NoTritRow(r.trits, r.scale);
      NoTritMeansFloor(w);
    }
  }

  /** So every row of at most 10^30 weights is stable. */
  lemma {:induction false} RealRowsAreStable(w: seq<real>)
    requires w != [] && |w| as real * TINY <= 1.0
    ensures var r := Exported(w); Exported(Rebuilt(r.trits, r.scale)) == r
  {
    ExportIsStable(w);
    var ts := Ternary(w);
    if AnyTrit(ts) {
      CountZero(ts, |ts|);
      Thick(Count(ts, |ts|) as real, |ts| as real);
    }
  }

  lemma {:induction false} Thick(c: real, n: real)
    requires c >= 1.0 && n > 0.0 && n * TINY <= 1.0
    ensures c / n >= TINY
  {
    var q := c / n;
    assert q * n == c;
    if q < TINY {
      Shrinks(q, TINY, n);
    }
  }
}
