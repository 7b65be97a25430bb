/**
 FakeSubMF (worker.cu:203-244): 90000 stochastic gradient steps in place on a P block and a Q block
 stored row after row. Doubles are reals here.
 */
module Sgd {

  import opened Params
  import opened Vectors

  // worker.cu:42-43, worker.cu:211
  const YITA: real := 0.001
  const THETA: real := 0.05
  const SAMPLE_NUM: nat := 90000

  /** What one sample multiplies the norm of the rows it touches by, at most. */
  const SHRINK: real := 1.0 - YITA * THETA

  /** Rows whose squared norm is at most this keep shrinking. */
  const LIMIT: real := 666.6

  // ---------- One sample ----------

  /** An element moved along the gradient: `own += yita * (err * other - theta * own)`. */
  function Nudge(err: real, own: real, other: real): real {
    own + YITA * (err * other - THETA * own)
  }

  /** The P row after a sample with error `err` (worker.cu:236). */
  function NewP(p: seq<real>, q: seq<real>, err: real): (r: seq<real>)
    requires |p| == |q|
    ensures |r| == |p|
  {
    seq(|p|, k requires 0 <= k < |p| => Nudge(err, p[k], q[k]))
  }

  /** The Q row, computed from the P row already updated (worker.cu:237). */
  function NewQ(p': seq<real>, q: seq<real>, err: real): (r: seq<real>)
    requires |p'| == |q|
    ensures |r| == |q|
  {
    seq(|q|, k requires 0 <= k < |q| => Nudge(err, q[k], p'[k]))
  }

  lemma NewPIsComb(p: seq<real>, q: seq<real>, err: real)
    requires |p| == |q|
    ensures NewP(p, q, err) == Comb(SHRINK, p, YITA * err, q)
  {
    forall k | 0 <= k < |p| ensures NewP(p, q, err)[k] == Comb(SHRINK, p, YITA * err, q)[k] {
      UpdateIsComb(p[k], q[k], err);
    }
  }

  lemma UpdateIsComb(a: real, b: real, err: real)
    ensures Nudge(err, a, b) == Mix(SHRINK, a, YITA * err, b)
  {
  }

  lemma NewQIsComb(p': seq<real>, q: seq<real>, err: real)
    requires |p'| == |q|
    ensures NewQ(p', q, err) == Comb(SHRINK, q, YITA * err, p')
  {
    forall k | 0 <= k < |q| ensures NewQ(p', q, err)[k] == Comb(SHRINK, q, YITA * err, p')[k] {
      UpdateIsComb(q[k], p'[k], err);
    }
  }

  lemma ShrinkP(n: real, d: real, m: real)
    requires 0.0 <= m <= LIMIT
    ensures NormOf(SHRINK, n, YITA * (0.0 - d), d, m) <= SHRINK * SHRINK * n
  {
    var e := 0.0 - d;
    var f := 2.0 * SHRINK * YITA - YITA * YITA * m;
    assert NormOf(SHRINK, n, YITA * e, d, m) == SHRINK * SHRINK * n - f * (e * e);
    assert f >= 0.0 && e * e >= 0.0;
    assert f * (e * e) >= 0.0;
  }

  /** `d` is the product of the old rows; the Q row meets the P row already updated. */
  lemma ShrinkQ(n: real, d: real, m: real)
    requires 0.0 <= n <= LIMIT && 0.0 <= m <= LIMIT
    ensures NormOf(SHRINK, n, YITA * (0.0 - d), Mix(SHRINK, d, YITA * (0.0 - d), n), m) <= SHRINK * SHRINK * n
  {
    var e := 0.0 - d;
    var d' := Mix(SHRINK, d, YITA * e, n);
    var f := 2.0 * SHRINK * (SHRINK - YITA * n) - YITA * m;
    assert d' == 0.0 - e * (SHRINK - YITA * n);
    assert NormOf(SHRINK, n, YITA * e, d', m) == SHRINK * SHRINK * n - YITA * (f * (e * e));
    assert f >= 0.0 && e * e >= 0.0;
    assert f * (e * e) >= 0.0;
  }

  lemma ShrinkStaysBelow(n: real)
    requires 0.0 <= n <= LIMIT
    ensures SHRINK * SHRINK * n <= LIMIT
  {
  }

  /** A sample with rating 0 shrinks both rows it touches. */
  lemma SampleShrinks(p: seq<real>, q: seq<real>)
    requires |p| == |q| && Norm2(p) <= LIMIT && Norm2(q) <= LIMIT
    ensures var err := 0.0 - Dot(p, q); var p' := NewP(p, q, err); var q' := NewQ(p', q, err);
            && Norm2(p') <= SHRINK * SHRINK * Norm2(p)
            && Norm2(q') <= SHRINK * SHRINK * Norm2(q)
  {
    hide Dot, Comb, NewP, NewQ, Mix, NormOf;
    var err := 0.0 - Dot(p, q);
    var p' := NewP(p, q, err);
    var n, d, m := Norm2(p), Dot(p, q), Norm2(q);
    NormNotNegative(p);
    NormNotNegative(q);
    NormNotNegative(p');
    NewPIsComb(p, q, err);
    NormComb(SHRINK, p, YITA * err, q);
    ShrinkP(n, d, m);
    ShrinkStaysBelow(n);
    NewQIsComb(p', q, err);
    NormComb(SHRINK, q, YITA * err, p');
    DotComb(SHRINK, p, YITA * err, q, q);
    DotCommutes(p', q);
    ShrinkQ(m, d, Norm2(p'));
  }

  // ---------- Blocks: rows of K elements one after another ----------

  predicate Holds(e: seq<real>, height: nat) {
    |e| == height * K
  }

  function Row(e: seq<real>, i: nat): (r: seq<real>)
    requires (i + 1) * K <= |e|
    ensures |r| == K
  {
    e[i * K..(i + 1) * K]
  }

  function SetRow(e: seq<real>, i: nat, r: seq<real>): (e': seq<real>)
    requires (i + 1) * K <= |e| && |r| == K
    ensures |e'| == |e|
  {
    e[..i * K] + r + e[(i + 1) * K..]
  }

  lemma RowOfSetRow(e: seq<real>, i: nat, r: seq<real>, j: nat)
    requires (i + 1) * K <= |e| && (j + 1) * K <= |e| && |r| == K
    ensures Row(SetRow(e, i, r), j) == if i == j then r else Row(e, j)
  {
    var e' := SetRow(e, i, r);
    forall k | 0 <= k < K ensures Row(e', j)[k] == if i == j then r[k] else Row(e, j)[k] {
      assert Row(e', j)[k] == e'[j * K + k];
    }
  }

  /** One pass of the loop: rating 0, P row pr, Q row qc. */
  function Sample(pe: seq<real>, qe: seq<real>, pr: nat, qc: nat): (r: (seq<real>, seq<real>))
    requires (pr + 1) * K <= |pe| && (qc + 1) * K <= |qe|
    ensures |r.0| == |pe| && |r.1| == |qe|
  {
    var p, q := Row(pe, pr), Row(qe, qc);
    var err := 0.0 - Dot(p, q);
    var p' := NewP(p, q, err);
    (SetRow(pe, pr, p'), SetRow(qe, qc, NewQ(p', q, err)))
  }

  lemma InRange(i: nat, height: nat)
    requires i < height
    ensures (i + 1) * K <= height * K
  {
  }

  /** Sample number s draws a P row, then a Q row. */
  function DrawnSample(pe: seq<real>, qe: seq<real>, ph: nat, qh: nat, dp: nat, dq: nat): (r: (seq<real>, seq<real>))
    requires ph > 0 && qh > 0 && Holds(pe, ph) && Holds(qe, qh)
    ensures Holds(r.0, ph) && Holds(r.1, qh)
  {
    InRange(dp % ph, ph);
    InRange(dq % qh, qh);
    Sample(pe, qe, dp % ph, dq % qh)
  }

  /** The first n samples, with `draws` the values that random() returns. */
  function Samples(pe: seq<real>, qe: seq<real>, ph: nat, qh: nat, draws: seq<nat>, n: nat): (r: (seq<real>, seq<real>))
    requires ph > 0 && qh > 0 && Holds(pe, ph) && Holds(qe, qh) && 2 * n <= |draws|
    ensures Holds(r.0, ph) && Holds(r.1, qh)
  {
    if n == 0 then (pe, qe)
    else
      var (pe', qe') := Samples(pe, qe, ph, qh, draws, n - 1);
      DrawnSample(pe', qe', ph, qh, draws[2 * n - 2], draws[2 * n - 1])
  }

  ghost predicate RowsBounded(e: seq<real>, height: nat, bound: real)
    requires Holds(e, height)
  {
    forall i | 0 <= i < height :: Norm2(Row(e, i)) <= bound
  }

  // ---------- Rows of which only a part has been replaced ----------

  ghost predicate TornFrom(a: seq<real>, b: seq<real>, c: seq<real>) {
    |a| == |b| == |c| && forall k | 0 <= k < |a| :: a[k] == b[k] || a[k] == c[k]
  }

  lemma {:induction false} TornNorm(a: seq<real>, b: seq<real>, c: seq<real>)
    requires TornFrom(a, b, c)
    ensures Norm2(a) <= Norm2(b) + Norm2(c)
  {
    if a != [] {
      var n := |a| - 1;
      TornNorm(a[..n], b[..n], c[..n]);
      assert b[n] * b[n] >= 0.0 && c[n] * c[n] >= 0.0;
    }
  }

  lemma TornRowsBounded(a: seq<real>, b: seq<real>, c: seq<real>, height: nat, bound: real)
    requires Holds(a, height) && TornFrom(a, b, c)
    requires RowsBounded(b, height, bound) && RowsBounded(c, height, bound)
    ensures RowsBounded(a, height, 2.0 * bound)
  {
    hide Dot;
    forall i | 0 <= i < height ensures Norm2(Row(a, i)) <= 2.0 * bound {
      InRange(i, height);
      assert Norm2(Row(b, i)) <= bound && Norm2(Row(c, i)) <= bound;
      TornNorm(Row(a, i), Row(b, i), Row(c, i));
    }
  }

  /** The rows after a sample: the two it draws are moved, the others stay. */
  lemma SampleRows(pe: seq<real>, qe: seq<real>, ph: nat, qh: nat, dp: nat, dq: nat)
    requires ph > 0 && qh > 0 && Holds(pe, ph) && Holds(qe, qh)
    ensures var pr, qc := dp % ph, dq % qh;
            var r, p, q := DrawnSample(pe, qe, ph, qh, dp, dq), Row(pe, pr), Row(qe, qc);
            var p' := NewP(p, q, 0.0 - Dot(p, q));
            && (forall i | 0 <= i < ph :: Row(r.0, i) == if i == pr then p' else Row(pe, i))
            && (forall i | 0 <= i < qh :: Row(r.1, i) == if i == qc then NewQ(p', q, 0.0 - Dot(p, q)) else Row(qe, i))
  {
    hide Dot, NewP, NewQ, SetRow, Row;
    var pr, qc := dp % ph, dq % qh;
    InRange(pr, ph);
    InRange(qc, qh);
    var p, q := Row(pe, pr), Row(qe, qc);
    var p' := NewP(p, q, 0.0 - Dot(p, q));
    var q' := NewQ(p', q, 0.0 - Dot(p, q));
    forall i | 0 <= i < ph ensures Row(SetRow(pe, pr, p'), i) == if i == pr then p' else Row(pe, i) {
      InRange(i, ph);
      RowOfSetRow(pe, pr, p', i);
    }
    forall i | 0 <= i < qh ensures Row(SetRow(qe, qc, q'), i) == if i == qc then q' else Row(qe, i) {
      InRange(i, qh);
      RowOfSetRow(qe, qc, q', i);
    }
  }

  /**
   What a sample of rating 0 does to the prediction: moving p to p' changes its product with q by a
   factor, and so does moving q to q'.
   */
  ghost predicate DotsMoved(p: seq<real>, q: seq<real>, p': seq<real>, q': seq<real>)
    requires |p| == |q| == |p'| == |q'|
  {
    && Dot(p', q) == Damped(Dot(p, q), Norm2(q))
    && Dot(q', p') == Corrected(Dot(q, p'), Dot(p, q), Norm2(p'))
  }

  function Damped(d: real, n: real): real { (SHRINK - YITA * n) * d }

  function Corrected(a: real, d: real, n: real): real { SHRINK * a - YITA * (d * n) }

  /** The same element by element, d being the prediction, with the source's yita 0.001 and theta 0.05. */
  ghost predicate RowsMoved(p: seq<real>, q: seq<real>, d: real, p': seq<real>, q': seq<real>)
    requires |p| == |q| == |p'| == |q'|
  {
    && (forall k | 0 <= k < |p| :: p'[k] == 0.99995 * p[k] - 0.001 * (d * q[k]))
    && (forall k | 0 <= k < |q| :: q'[k] == 0.99995 * q[k] - 0.001 * (d * p'[k]))
  }

  lemma MovingP(p: seq<real>, q: seq<real>)
    requires |p| == |q|
    ensures Dot(NewP(p, q, 0.0 - Dot(p, q)), q) == Damped(Dot(p, q), Norm2(q))
  {
    hide Dot, NewP, Comb, Mix, Damped;
    var d := Dot(p, q);
    NewPIsComb(p, q, 0.0 - d);
    DotComb(SHRINK, p, YITA * (0.0 - d), q, q);
    MixIsDamped(d, Norm2(q));
  }

  lemma MovingQ(p': seq<real>, q: seq<real>, d: real)
    requires |p'| == |q|
    ensures Dot(NewQ(p', q, 0.0 - d), p') == Corrected(Dot(q, p'), d, Norm2(p'))
  {
    hide Dot, NewQ, Comb, Mix, Corrected;
    NewQIsComb(p', q, 0.0 - d);
    DotComb(SHRINK, q, YITA * (0.0 - d), p', p');
    MixIsCorrected(Dot(q, p'), d, Norm2(p'));
  }

  lemma MixIsDamped(d: real, n: real)
    ensures Mix(SHRINK, d, YITA * (0.0 - d), n) == Damped(d, n)
  {
  }

  lemma MixIsCorrected(a: real, d: real, n: real)
    ensures Mix(SHRINK, a, YITA * (0.0 - d), n) == Corrected(a, d, n)
  {
  }

  lemma RowsMove(p: seq<real>, q: seq<real>, d: real)
    requires |p| == |q|
    ensures var p' := NewP(p, q, 0.0 - d);
            RowsMoved(p, q, d, p', NewQ(p', q, 0.0 - d))
  {
    hide NewP, NewQ;
    var p' := NewP(p, q, 0.0 - d);
    forall k | 0 <= k < |p| ensures p'[k] == 0.99995 * p[k] - 0.001 * (d * q[k]) {
      NewAt(p, q, 0.0 - d, k);
    }
    forall k | 0 <= k < |q| ensures NewQ(p', q, 0.0 - d)[k] == 0.99995 * q[k] - 0.001 * (d * p'[k]) {
      NewAt(p, q, 0.0 - d, k);
    }
  }

  /** So it is for the rows that a sample draws; all other rows stay. */
  lemma SampleMovesPrediction(pe: seq<real>, qe: seq<real>, ph: nat, qh: nat, dp: nat, dq: nat)
    requires ph > 0 && qh > 0 && Holds(pe, ph) && Holds(qe, qh)
    ensures var r, pr, qc := DrawnSample(pe, qe, ph, qh, dp, dq), dp % ph, dq % qh;
            var p, q, p', q' := Row(pe, pr), Row(qe, qc), Row(r.0, pr), Row(r.1, qc);
            && DotsMoved(p, q, p', q') && RowsMoved(p, q, Dot(p, q), p', q')
            && (forall i | 0 <= i < ph && i != pr :: Row(r.0, i) == Row(pe, i))
            && (forall i | 0 <= i < qh && i != qc :: Row(r.1, i) == Row(qe, i))
  {
    hide Dot, NewP, NewQ, SetRow, Row, RowsMoved, Damped, Corrected;
    SampleRows(pe, qe, ph, qh, dp, dq);
    var pr, qc := dp % ph, dq % qh;
    InRange(pr, ph);
    InRange(qc, qh);
    var p, q := Row(pe, pr), Row(qe, qc);
    MovingP(p, q);
    MovingQ(NewP(p, q, 0.0 - Dot(p, q)), q, Dot(p, q));
    RowsMove(p, q, Dot(p, q));
  }

  /** A sample shrinks the two rows it draws and leaves the others as they are. */
  lemma SampleKeepsRows(pe: seq<real>, qe: seq<real>, ph: nat, qh: nat, dp: nat, dq: nat)
    requires ph > 0 && qh > 0 && Holds(pe, ph) && Holds(qe, qh)
    requires RowsBounded(pe, ph, LIMIT) && RowsBounded(qe, qh, LIMIT)
    ensures var r := DrawnSample(pe, qe, ph, qh, dp, dq);
            && (forall i | 0 <= i < ph && i != dp % ph :: Row(r.0, i) == Row(pe, i))
            && (forall i | 0 <= i < qh && i != dq % qh :: Row(r.1, i) == Row(qe, i))
            && Norm2(Row(r.0, dp % ph)) <= SHRINK * SHRINK * Norm2(Row(pe, dp % ph))
            && Norm2(Row(r.1, dq % qh)) <= SHRINK * SHRINK * Norm2(Row(qe, dq % qh))
            && RowsBounded(r.0, ph, LIMIT) && RowsBounded(r.1, qh, LIMIT)
  {
    hide Dot, NewP, NewQ, SetRow, Row;
    SampleRows(pe, qe, ph, qh, dp, dq);
    var pr, qc := dp % ph, dq % qh;
    InRange(pr, ph);
    InRange(qc, qh);
    var p, q := Row(pe, pr), Row(qe, qc);
    SampleShrinks(p, q);
    NormNotNegative(p);
    NormNotNegative(q);
  }

  lemma NoSamples(pe: seq<real>, qe: seq<real>, ph: nat, qh: nat, draws: seq<nat>)
    requires ph > 0 && qh > 0 && Holds(pe, ph) && Holds(qe, qh)
    ensures Samples(pe, qe, ph, qh, draws, 0) == (pe, qe)
  {
  }

  lemma NextSample(pe: seq<real>, qe: seq<real>, ph: nat, qh: nat, draws: seq<nat>, n: nat)
    requires ph > 0 && qh > 0 && Holds(pe, ph) && Holds(qe, qh) && 2 * n + 2 <= |draws|
    ensures var r := Samples(pe, qe, ph, qh, draws, n);
            Samples(pe, qe, ph, qh, draws, n + 1) ==
            DrawnSample(r.0, r.1, ph, qh, draws[2 * n], draws[2 * n + 1])
  {
    hide DrawnSample;
  }

  /** Samples taken in two goes are the samples taken in one, the second go using up the later draws. */
  lemma {:induction false} SamplesSplit(pe: seq<real>, qe: seq<real>, ph: nat, qh: nat, draws: seq<nat>, m: nat, n: nat)
    requires ph > 0 && qh > 0 && Holds(pe, ph) && Holds(qe, qh) && 2 * (m + n) <= |draws|
    ensures var r := Samples(pe, qe, ph, qh, draws[..2 * m], m);
            Samples(r.0, r.1, ph, qh, draws[2 * m..], n) == Samples(pe, qe, ph, qh, draws, m + n)
  {
    hide DrawnSample;
    if n == 0 {
      SamplesUseFirst(pe, qe, ph, qh, draws, draws[..2 * m], m);
    } else {
      SamplesSplit(pe, qe, ph, qh, draws, m, n - 1);
      var i := 2 * (m + n);
      assert draws[2 * m..][2 * n - 2] == draws[i - 2] && draws[2 * m..][2 * n - 1] == draws[i - 1];
    }
  }

  /** The first n samples depend on nothing but the first 2 n draws. */
  lemma {:induction false} SamplesUseFirst(pe: seq<real>, qe: seq<real>, ph: nat, qh: nat,
                                           d: seq<nat>, d': seq<nat>, n: nat)
    requires ph > 0 && qh > 0 && Holds(pe, ph) && Holds(qe, qh) && 2 * n <= |d| && 2 * n <= |d'|
    requires d[..2 * n] == d'[..2 * n]
    ensures Samples(pe, qe, ph, qh, d, n) == Samples(pe, qe, ph, qh, d', n)
  {
    hide DrawnSample;
    if n > 0 {
      assert forall k | 0 <= k < 2 * n :: d[k] == d[..2 * n][k] == d'[..2 * n][k] == d'[k];
      assert d[..2 * n - 2] == d'[..2 * n - 2];
      SamplesUseFirst(pe, qe, ph, qh, d, d', n - 1);
    }
  }

  /** However many samples are taken, whatever they draw, no row leaves the ball. */
  lemma {:induction false} SamplesKeepBound(pe: seq<real>, qe: seq<real>, ph: nat, qh: nat, draws: seq<nat>, n: nat)
    requires ph > 0 && qh > 0 && Holds(pe, ph) && Holds(qe, qh) && 2 * n <= |draws|
    requires RowsBounded(pe, ph, LIMIT) && RowsBounded(qe, qh, LIMIT)
    ensures var r := Samples(pe, qe, ph, qh, draws, n);
            RowsBounded(r.0, ph, LIMIT) && RowsBounded(r.1, qh, LIMIT)
  {
    hide RowsBounded, DrawnSample;
    if n > 0 {
      SamplesKeepBound(pe, qe, ph, qh, draws, n - 1);
      var r := Samples(pe, qe, ph, qh, draws, n - 1);
      SampleKeepsRows(r.0, r.1, ph, qh, draws[2 * n - 2], draws[2 * n - 1]);
    }
  }

  /** Rows of equal elements, as the PS fills them (ps.cpp:122-134). */
  lemma {:induction false} ConstantNorm(a: seq<real>, v: real)
    requires forall k | 0 <= k < |a| :: a[k] == v
    ensures Norm2(a) == |a| as real * (v * v)
  {
    if a != [] {
      var n := |a| - 1;
      ConstantNorm(a[..n], v);
      assert (n + 1) as real * (v * v) == n as real * (v * v) + v * v;
    }
  }

  /** The initial blocks of worker i are inside the ball exactly for the first sixteen workers. */
  lemma InitialRowsBounded(i: nat, p: seq<real>, q: seq<real>)
    requires |p| == |q| == K
    requires forall k | 0 <= k < K :: p[k] == i as real * 0.1 && q[k] == i as real * 0.1 + 1.0
    ensures Norm2(p) <= LIMIT && Norm2(q) <= LIMIT <==> i <= 15
  {
    hide Dot;
    var x := i as real;
    ConstantNorm(p, x * 0.1);
    ConstantNorm(q, x * 0.1 + 1.0);
    assert Norm2(p) == x * x;
    assert Norm2(q) == (x + 10.0) * (x + 10.0);
    if i <= 15 {
      assert x * x <= 15.0 * x <= 15.0 * 15.0;
    } else {
      assert x * x >= 16.0 * x >= 16.0 * 16.0;
    }
  }

  // ---------- In place ----------

  /** The prediction loop (worker.cu:228-231). */
  method Predict(pe: array<real>, qe: array<real>, pr: nat, qc: nat) returns (predict: real)
    requires (pr + 1) * K <= pe.Length && (qc + 1) * K <= qe.Length
    ensures predict == Dot(Row(pe[..], pr), Row(qe[..], qc))
  {
    ghost var p, q := Row(pe[..], pr), Row(qe[..], qc);
    predict := 0.0;
    var k := 0;
    while k < K
      invariant 0 <= k <= K
      invariant predict == Dot(p[..k], q[..k])
    {
      assert p[..k + 1][..k] == p[..k] && q[..k + 1][..k] == q[..k];
      predict := predict + pe[pr * K + k] * qe[qc * K + k];
      k := k + 1;
    }
    assert p[..K] == p && q[..K] == q;
  }

  lemma NewAt(p: seq<real>, q: seq<real>, err: real, k: nat)
    requires |p| == |q| && k < |p|
    ensures NewP(p, q, err)[k] == Nudge(err, p[k], q[k])
    ensures var p' := NewP(p, q, err);
            NewQ(p', q, err)[k] == Nudge(err, q[k], p'[k])
  {
  }

  /** Elements [base, base + k) of `e` come from `row`, the others from `e0`. */
  ghost predicate Replaced(e: seq<real>, e0: seq<real>, base: nat, row: seq<real>, k: nat) {
    && |e| == |e0| && k <= |row| && base + |row| <= |e|
    && forall x | 0 <= x < |e| :: e[x] == if base <= x < base + k then row[x - base] else e0[x]
  }

  lemma ReplacedRow(e: seq<real>, e0: seq<real>, i: nat, row: seq<real>)
    requires |row| == K && (i + 1) * K <= |e0| && Replaced(e, e0, i * K, row, K)
    ensures e == SetRow(e0, i, row)
  {
  }

  /** The same update element by element, with the source's yita 0.001 and theta 0.05; all others stay. */
  ghost predicate ElementsMoved(pe: seq<real>, qe: seq<real>, pr: nat, qc: nat, error: real,
                                pe': seq<real>, qe': seq<real>)
    requires (pr + 1) * K <= |pe| && (qc + 1) * K <= |qe|
  {
    && |pe'| == |pe| && |qe'| == |qe|
    && (forall x | 0 <= x < |pe| ::
          pe'[x] == if x / K == pr then 0.99995 * pe[x] + 0.001 * (error * qe[qc * K + x % K]) else pe[x])
    && (forall y | 0 <= y < |qe| ::
          qe'[y] == if y / K == qc then 0.99995 * qe[y] + 0.001 * (error * pe'[pr * K + y % K]) else qe[y])
  }

  lemma RowsMoveElements(pe: seq<real>, qe: seq<real>, pr: nat, qc: nat, error: real)
    requires (pr + 1) * K <= |pe| && (qc + 1) * K <= |qe|
    ensures var p, q := Row(pe, pr), Row(qe, qc);
            ElementsMoved(pe, qe, pr, qc, error, SetRow(pe, pr, NewP(p, q, error)),
                          SetRow(qe, qc, NewQ(NewP(p, q, error), q, error)))
  {
    hide NewP, NewQ;
    var p, q := Row(pe, pr), Row(qe, qc);
    var p' := NewP(p, q, error);
    var q' := NewQ(p', q, error);
    forall k | 0 <= k < K
      ensures p'[k] == 0.99995 * p[k] + 0.001 * (error * q[k]) && q'[k] == 0.99995 * q[k] + 0.001 * (error * p'[k])
    {
      NewAt(p, q, error, k);
      UpdateIsComb(p[k], q[k], error);
      UpdateIsComb(q[k], p'[k], error);
    }
  }

  /** The update loop (worker.cu:234-238): each P element first, then the Q element that sees it. */
  method UpdateRows(pe: array<real>, qe: array<real>, pr: nat, qc: nat, error: real)
    requires pe != qe && (pr + 1) * K <= pe.Length && (qc + 1) * K <= qe.Length
    modifies pe, qe
    ensures var p, q := Row(old(pe[..]), pr), Row(old(qe[..]), qc);
            && pe[..] == SetRow(old(pe[..]), pr, NewP(p, q, error))
            && qe[..] == SetRow(old(qe[..]), qc, NewQ(NewP(p, q, error), q, error))
    ensures ElementsMoved(old(pe[..]), old(qe[..]), pr, qc, error, pe[..], qe[..])
  {
    hide NewP, NewQ, SetRow, Nudge, ElementsMoved;
    ghost var pe0, qe0 := pe[..], qe[..];
    ghost var p, q := Row(pe0, pr), Row(qe0, qc);
    ghost var p' := NewP(p, q, error);
    ghost var q' := NewQ(p', q, error);
    var k := 0;
    while k < K
      invariant 0 <= k <= K
      invariant Replaced(pe[..], pe0, pr * K, p', k)
      invariant Replaced(qe[..], qe0, qc * K, q', k)
    {
      var x, y := pr * K + k, qc * K + k;
      assert p[k] == pe[x] && q[k] == qe[y];
      NewAt(p, q, error, k);
      pe[x] := Nudge(error, pe[x], qe[y]);
      assert pe[x] == p'[k];
      qe[y] := Nudge(error, qe[y], pe[x]);
      assert qe[y] == q'[k];
      k := k + 1;
    }
    ReplacedRow(pe[..], pe0, pr, p');
    ReplacedRow(qe[..], qe0, qc, q');
    RowsMoveElements(pe0, qe0, pr, qc, error);
  }

  /** `draws` are the values that successive calls of random() return. */
  method FakeSubMF(pe: array<real>, qe: array<real>, ph: nat, qh: nat, draws: seq<nat>)
    requires pe != qe && ph > 0 && qh > 0 && Holds(pe[..], ph) && Holds(qe[..], qh)
    requires 2 * SAMPLE_NUM <= |draws|
    modifies pe, qe
    ensures Holds(pe[..], ph) && Holds(qe[..], qh)
    ensures (pe[..], qe[..]) == Samples(old(pe[..]), old(qe[..]), ph, qh, draws, SAMPLE_NUM)
    ensures old(RowsBounded(pe[..], ph, LIMIT) && RowsBounded(qe[..], qh, LIMIT)) ==>
              RowsBounded(pe[..], ph, LIMIT) && RowsBounded(qe[..], qh, LIMIT)
  {
    hide Dot, NewP, NewQ, Row, SetRow, RowsBounded, Samples, ElementsMoved;
    ghost var pe0, qe0 := pe[..], qe[..];
    NoSamples(pe0, qe0, ph, qh, draws);
    var sn := 0;
    while sn < SAMPLE_NUM
      invariant 0 <= sn <= SAMPLE_NUM
      invariant Holds(pe[..], ph) && Holds(qe[..], qh)
      invariant (pe[..], qe[..]) == Samples(pe0, qe0, ph, qh, draws, sn)
    {
      var pr, qc := draws[2 * sn] % ph, draws[2 * sn + 1] % qh;
      NextSample(pe0, qe0, ph, qh, draws, sn);
      InRange(pr, ph);
      InRange(qc, qh);
      var r := 0.0;
      var predict := Predict(pe, qe, pr, qc);
      UpdateRows(pe, qe, pr, qc, r - predict);
      sn := sn + 1;
    }
    if RowsBounded(pe0, ph, LIMIT) && RowsBounded(qe0, qh, LIMIT) {
      SamplesKeepBound(pe0, qe0, ph, qh, draws, SAMPLE_NUM);
    }
  }
}
