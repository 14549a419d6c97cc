/** Adaptive halting of the recurrent stack (tools/bitfuzzy_moe_recurrent.py, `BitFuzzyRecurrent.forward`): one shared
    block is applied up to `blocks` times to a whole batch, and samples that have converged are frozen.

    Block, step vector and halting test are functions of one sample. Gradients are not modelled.
 */
module ActHalting {

  /** `step(t, h)` is the state after step `t`; `halts(new, old)` says the step from `old` to `new` triggers the halt. */
  datatype Model<!H> = Model(blocks: nat, act: bool, step: (nat, H) -> H, halts: (H, H) -> bool)

  // ----- one sample on its own ------------------------------------------------------------------------------

  /** The state after `t` steps without any halting. */
  function Trace<H>(m: Model<H>, h: H, t: nat): H {
    if t == 0 then h else m.step(t - 1, Trace(m, h, t - 1))
  }

  /** Step number `t`, counted from 1, triggers the halt. */
  predicate Triggers<H>(m: Model<H>, h: H, t: nat)
    requires t > 0
  {
    m.act && m.halts(Trace(m, h, t), Trace(m, h, t - 1))
  }

  /** `n` steps are what the sample takes on its own: up to and including the first that triggers the halt, or all. */
  predicate Takes<H>(m: Model<H>, h: H, n: nat) {
    && n <= m.blocks
    && (forall t :: 0 < t < n ==> !Triggers(m, h, t))
    && (n < m.blocks ==> n > 0 && Triggers(m, h, n))
  }

  /** There is only one such number. */
  lemma {:induction false} TakesOnce<H>(m: Model<H>, h: H, a: nat, b: nat)
    requires Takes(m, h, a) && Takes(m, h, b)
    ensures a == b
  {
  }

  // ----- the batch ------------------------------------------------------------------------------------------

  /** Sample `i` after `t` rounds: still running and untriggered, or frozen where its own run ends. */
  ghost predicate SampleInv<H>(m: Model<H>, h0: H, h: H, halted: bool, count: nat, t: nat) {
    && count <= t && h == Trace(m, h0, count)
    && (forall k :: 0 < k < count ==> !Triggers(m, h0, k))
    && (if halted then count > 0 && Triggers(m, h0, count) else count == t && (t > 0 ==> !Triggers(m, h0, t)))
  }

  lemma {:induction false} FrozenTakes<H>(m: Model<H>, h0: H, h: H, halted: bool, count: nat, t: nat)
    requires SampleInv(m, h0, h, halted, count, t) && t <= m.blocks && (halted || t == m.blocks)
    ensures Takes(m, h0, count)
  {
  }

  /** One round for one sample: a frozen one keeps its state, a running one takes the step whether or not it halts. */
  lemma {:induction false} RoundKeepsInv<H>(m: Model<H>, h0: H, h: H, halted: bool, count: nat, t: nat)
    requires SampleInv(m, h0, h, halted, count, t)
    ensures var next := m.step(t, h);
            SampleInv(m, h0, if halted then h else next, halted || (m.act && m.halts(next, h)),
                      if halted then count else count + 1, t + 1)
  {
    if !halted {
      assert Trace(m, h0, t + 1) == m.step(t, h);
    }
  }

  ghost predicate BatchInv<H>(m: Model<H>, h0: seq<H>, h: seq<H>, halted: seq<bool>, counts: seq<nat>, t: nat) {
    && |h| == |h0| && |halted| == |h0| && |counts| == |h0|
    && forall i :: 0 <= i < |h0| ==> SampleInv(m, h0[i], h[i], halted[i], counts[i], t)
  }

  predicate All(halted: seq<bool>) {
    forall i :: 0 <= i < |halted| ==> halted[i]
  }

  lemma {:induction false} BatchRound<H>(m: Model<H>, h0: seq<H>, h: seq<H>, halted: seq<bool>, counts: seq<nat>, t: nat,
                                         h': seq<H>, halted': seq<bool>, counts': seq<nat>)
    requires BatchInv(m, h0, h, halted, counts, t)
    requires |h'| == |h0| && |halted'| == |h0| && |counts'| == |h0|
    requires forall i :: 0 <= i < |h0| ==> h'[i] == if halted[i] then h[i] else m.step(t, h[i])
    requires forall i :: 0 <= i < |h0| ==> halted'[i] == (halted[i] || (m.act && m.halts(m.step(t, h[i]), h[i])))
    requires forall i :: 0 <= i < |h0| ==> counts'[i] == if halted[i] then counts[i] else counts[i] + 1
    ensures BatchInv(m, h0, h', halted', counts', t + 1)
  {
    forall i | 0 <= i < |h0| ensures SampleInv(m, h0[i], h'[i], halted'[i], counts'[i], t + 1) {
      RoundKeepsInv(m, h0[i], h[i], halted[i], counts[i], t);
    }
  }

  method AllHalted(halted: seq<bool>) returns (r: bool)
    ensures r == All(halted)
  {
    for i := 0 to |halted|
      invariant forall k :: 0 <= k < i ==> halted[k]
    {
      if !halted[i] {
        return false;
      }
    }
    r := true;
  }

  /** One round of the loop over the whole batch. */
  method Round<H>(m: Model<H>, ghost h0: seq<H>, h: seq<H>, halted: seq<bool>, counts: seq<nat>, t: nat)
    returns (h': seq<H>, halted': seq<bool>, counts': seq<nat>)
    requires BatchInv(m, h0, h, halted, counts, t)
    ensures BatchInv(m, h0, h', halted', counts', t + 1)
    ensures !All(halted) ==> t + 1 in counts'
  {
    var n := |h|;
    var nexts := seq(n, i requires 0 <= i < n => m.step(t, h[i]));
    var newly := seq(n, i requires 0 <= i < n => m.act && !halted[i] && m.halts(nexts[i], h[i]));
    h' := seq(n, i requires 0 <= i < n => if halted[i] then h[i] else nexts[i]);
    counts' := seq(n, i requires 0 <= i < n => if halted[i] then counts[i] else counts[i] + 1);
    halted' := seq(n, i requires 0 <= i < n => halted[i] || newly[i]);
    BatchRound(m, h0, h, halted, counts, t, h', halted', counts');
    if !All(halted) {
      ghost var k :| 0 <= k < n && !halted[k];
      assert SampleInv(m, h0[k], h[k], halted[k], counts[k], t);
      assert counts'[k] == t + 1;
    }
  }

  /** Every sample gets the state and the step count of its own run, and `steps` is the largest count. An empty batch
      counts as halted after one round. */
  method RunBatch<H>(m: Model<H>, h0: seq<H>) returns (h: seq<H>, counts: seq<nat>, steps: nat)
    ensures |h| == |h0| && |counts| == |h0|
    ensures forall i :: 0 <= i < |h0| ==> Takes(m, h0[i], counts[i]) && h[i] == Trace(m, h0[i], counts[i])
    ensures forall i :: 0 <= i < |h0| ==> counts[i] <= steps
    ensures h0 != [] ==> steps in counts
    ensures h0 == [] ==> steps == if m.blocks == 0 then 0 else 1
  {
    var n := |h0|;
    h, counts, steps := h0, seq(n, _ => 0), 0;
    var halted := seq(n, _ => false);
    assert n > 0 ==> counts[0] == 0 && !halted[0];
    var done := false;
    while steps < m.blocks && !done
      invariant steps <= m.blocks && BatchInv(m, h0, h, halted, counts, steps)
      invariant n > 0 ==> steps in counts && (!done ==> !All(halted))
      invariant done ==> All(halted)
      invariant n == 0 ==> steps == if done then 1 else 0
      decreases m.blocks - steps
    {
      h, halted, counts := Round(m, h0, h, halted, counts, steps);
      steps := steps + 1;
      done := AllHalted(halted);
    }
    forall i | 0 <= i < n ensures Takes(m, h0[i], counts[i]) && h[i] == Trace(m, h0[i], counts[i]) {
      FrozenTakes(m, h0[i], h[i], halted[i], counts[i], steps);
    }
  }

  /** The module: the last run's step counts stay in a field. */
  class Recurrent<!H> {
    const model: Model<H>
    var lastSteps: seq<nat>

    constructor (model: Model<H>)
      ensures this.model == model && lastSteps == []
    {
      this.model, lastSteps := model, [];
    }

    method Forward(h0: seq<H>) returns (h: seq<H>, steps: nat)
      modifies this
      ensures |h| == |h0| && |lastSteps| == |h0|
      ensures forall i :: 0 <= i < |h0| ==> Takes(model, h0[i], lastSteps[i]) && h[i] == Trace(model, h0[i], lastSteps[i])
      ensures forall i :: 0 <= i < |h0| ==> lastSteps[i] <= steps
      ensures h0 != [] ==> steps in lastSteps
    {
      var counts;
      h, counts, steps := RunBatch(model, h0);
      lastSteps := counts;
    }
  }

  /** What a batch gives a sample does not depend on the batch it is in. */
  lemma {:induction false} BatchesAgree<H>(m: Model<H>, h0: H, h: H, n: nat, h': H, n': nat)
    requires Takes(m, h0, n) && h == Trace(m, h0, n)
    requires Takes(m, h0, n') && h' == Trace(m, h0, n')
    ensures n == n' && h == h'
  {
    TakesOnce(m, h0, n, n');
  }
}
