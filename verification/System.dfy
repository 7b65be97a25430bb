/**
 The program as it is configured: the blocks of partitionBlock, the initial values of ps.cpp, the
 arithmetic of FakeSubMF and 1200 rounds, put into the round protocol.
 */
module System {
  import opened Cells
  import opened Frames
  import opened Params
  import opened Rounds
  import opened Invariant
  import opened Safety
  import opened Progress
  import opened Liveness
  import opened Vectors
  import Fairness
  import Partition
  import Races
  import Sgd

  const ROUNDS: nat := 1200

  /** A registered buffer, counted in cells: ten header cells and as many doubles as fit. */
  const BUFFER_CELLS: nat := (BUFFER_SIZE - 2 * STRUCT_SIZE) / DOUBLE_SIZE + 2 * HEADER

  function PHeight(p: nat, i: nat): (h: nat)
    requires p > 0
  {
    Partition.HeightByBranch(N, p, i);
    Partition.Height(N, p, i)
  }

  function QHeight(p: nat, i: nat): (h: nat)
    requires p > 0
  {
    Partition.HeightByBranch(M, p, i);
    Partition.Height(M, p, i)
  }

  function Fill(n: nat, v: real): (r: seq<real>)
    ensures |r| == n && forall k | 0 <= k < n :: r[k] == v
  {
    seq(n, _ => v)
  }

  /** Blocks i of p after partitioning and filling (ps.cpp:120-134). */
  function InitP(p: nat, i: nat): BlockVal
    requires p > 0
  {
    BlockVal(i, 0, i * Partition.Ceil(N, p), PHeight(p, i), Fill(PHeight(p, i) * K, i as real * 0.1))
  }

  function InitQ(p: nat, i: nat): BlockVal
    requires p > 0
  {
    BlockVal(i, 0, i * Partition.Ceil(M, p), QHeight(p, i), Fill(QHeight(p, i) * K, i as real * 0.1 + 1.0))
  }

  /** Every element of a new array gets the same value. */
  method FillElements(eles: array<real>, v: real)
    modifies eles
    ensures forall j | 0 <= j < eles.Length :: eles[j] == v
  {
    var j := 0;
    while j < eles.Length
      invariant 0 <= j <= eles.Length
      invariant forall k | 0 <= k < j :: eles[k] == v
    {
      eles[j] := v;
      j := j + 1;
    }
  }

  /** How the PS prepares its two block arrays for p workers (ps.cpp:116-134). */
  method SetUpBlocks(p: nat, pBlocks: array<Block>, qBlocks: array<Block>)
    requires 0 < p <= pBlocks.Length && p <= qBlocks.Length && pBlocks != qBlocks
    modifies pBlocks, qBlocks
    ensures forall i | 0 <= i < p ::
              && Partition.IsPart(pBlocks[i], N, K, p, i) && fresh(pBlocks[i].eles)
              && Partition.IsPart(qBlocks[i], M, K, p, i) && fresh(qBlocks[i].eles)
    ensures forall i, j | 0 <= i < p && 0 <= j < pBlocks[i].eles.Length :: pBlocks[i].eles[j] == i as real * 0.1
    ensures forall i, j | 0 <= i < p && 0 <= j < qBlocks[i].eles.Length :: qBlocks[i].eles[j] == i as real * 0.1 + 1.0
    ensures forall i, j | 0 <= i < j < p ::
              pBlocks[i].eles != pBlocks[j].eles && qBlocks[i].eles != qBlocks[j].eles
    ensures forall i, j | 0 <= i < p && 0 <= j < p :: pBlocks[i].eles != qBlocks[j].eles
  {
    hide Partition.IsPart;
    Partition.PartitionBlock(N, K, p, pBlocks);
    Partition.PartitionBlock(M, K, p, qBlocks);
    ghost var ps, qs := pBlocks[..], qBlocks[..];
    var i := 0;
    while i < p
      invariant 0 <= i <= p && pBlocks[..] == ps && qBlocks[..] == qs
      invariant forall k, j | 0 <= k < i && 0 <= j < ps[k].eles.Length :: ps[k].eles[j] == k as real * 0.1
      invariant forall k, j | 0 <= k < i && 0 <= j < qs[k].eles.Length :: qs[k].eles[j] == k as real * 0.1 + 1.0
    {
      FillElements(pBlocks[i].eles, i as real * 0.1);
      FillElements(qBlocks[i].eles, i as real * 0.1 + 1.0);
      i := i + 1;
    }
  }

  /** Element arrays that FakeSubMF can work on. */
  predicate Workable(b: BlockVal) {
    b.height > 0 && Sgd.Holds(b.eles, b.height)
  }

  /** `rnd(i, n)` is the n-th value that random() returns in worker i. */
  type Random = (nat, nat) -> nat

  /** The draws of compute step t. */
  function Draws(rnd: Random, i: nat, t: nat): (r: seq<nat>)
    ensures |r| == 2 * Sgd.SAMPLE_NUM
  {
    seq(2 * Sgd.SAMPLE_NUM, n requires n >= 0 => rnd(i, 2 * Sgd.SAMPLE_NUM * t + n))
  }

  /** Sample s of compute step t on the pair in memory. */
  function SampleStep(rnd: Random, i: nat, t: nat, s: nat, x: seq<Cell>): seq<Cell> {
    var (p, q) := ParsePair(x);
    if Workable(p) && Workable(q) && s < Sgd.SAMPLE_NUM then
      var d := Draws(rnd, i, t);
      var (pe, qe) := Sgd.DrawnSample(p.eles, q.eles, p.height, q.height, d[2 * s], d[2 * s + 1]);
      PairImage(p.(eles := pe), q.(eles := qe))
    else x
  }

  function Configure(p: nat, rnd: Random): Config
    requires p > 0
  {
    Config(ROUNDS, BUFFER_CELLS, Sgd.SAMPLE_NUM,
           seq(p, i requires i >= 0 => PairImage(InitP(p, i), InitQ(p, i))),
           (i: nat, t: nat, s: nat, x: seq<Cell>) => SampleStep(rnd, i, t, s, x))
  }

  // ---------- The configuration is what the PS prepares ----------

  /** The frames of blocks prepared in this way are where the protocol starts. */
  lemma BlocksAreConfigured(p: nat, rnd: Random, pBlocks: seq<Block>, qBlocks: seq<Block>)
    requires 0 < p <= |pBlocks| && p <= |qBlocks|
    requires forall i | 0 <= i < p ::
               Partition.IsPart(pBlocks[i], N, K, p, i) && Partition.IsPart(qBlocks[i], M, K, p, i)
    requires forall i, j | 0 <= i < p && 0 <= j < pBlocks[i].eles.Length :: pBlocks[i].eles[j] == i as real * 0.1
    requires forall i, j | 0 <= i < p && 0 <= j < qBlocks[i].eles.Length ::
               qBlocks[i].eles[j] == i as real * 0.1 + 1.0
    ensures |Configure(p, rnd).init| == p
    ensures forall i: nat | i < p :: Configure(p, rnd).init[i] == PairImage(Val(pBlocks[i]), Val(qBlocks[i]))
  {
    hide PairImage;
    forall i: nat | i < p ensures Val(pBlocks[i]) == InitP(p, i) && Val(qBlocks[i]) == InitQ(p, i) {
      assert pBlocks[i].eles[..] == Fill(PHeight(p, i) * K, i as real * 0.1);
      assert qBlocks[i].eles[..] == Fill(QHeight(p, i) * K, i as real * 0.1 + 1.0);
    }
  }

  // ---------- The configuration satisfies what the protocol needs ----------

  /** Every worker has its entry in the PS's arrays, frames fit the buffers and FakeSubMF's moduli are defined. */
  ghost predicate Usable(p: nat) {
    3 <= p <= CAP && forall i: nat | i < p :: PHeight(p, i) > 0 && QHeight(p, i) > 0
  }

  /** The numbers of workers that the program can be started with; all from 3 to 791 are among them. */
  lemma UsableIff(p: nat)
    ensures Usable(p) <==> 3 <= p <= CAP && (p - 1) * Partition.Ceil(N, p) < N && (p - 1) * Partition.Ceil(M, p) < M
    ensures 3 <= p <= 791 ==> Usable(p)
  {
    if p >= 3 {
      Partition.NonEmptyIff(N, p);
      Partition.NonEmptyIff(M, p);
      assert forall i: nat | i < p ::
               PHeight(p, i) == Partition.Height(N, p, i) && QHeight(p, i) == Partition.Height(M, p, i);
      hide PHeight, QHeight, Partition.Height, Partition.Ceil;
      if p <= 791 {
        forall i: nat | i < p ensures PHeight(p, i) > 0 && QHeight(p, i) > 0 {
          Partition.BlocksNonEmpty(p, i);
        }
      }
    }
  }

  lemma InitParses(p: nat, i: nat)
    requires p > 0
    ensures ParsePair(PairImage(InitP(p, i), InitQ(p, i))) == (InitP(p, i), InitQ(p, i))
    ensures WellTyped(PairImage(InitP(p, i), InitQ(p, i)))
    ensures QBase(PairImage(InitP(p, i), InitQ(p, i))) == HEADER + |InitP(p, i).eles|
  {
    hide ParsePair, PairImage;
    var x := PairImage(InitP(p, i), InitQ(p, i));
    assert x + [] == x;
    FrameRoundTrip(InitP(p, i), InitQ(p, i), []);
    ImageIsWellTyped(InitP(p, i), InitQ(p, i));
  }

  lemma InitFits(p: nat, i: nat)
    requires p >= 3 && i < p
    ensures |PairImage(InitP(p, i), InitQ(p, i))| <= BUFFER_CELLS
  {
    Partition.FrameFitsIff(p);
    assert Partition.FrameBytes(p, i) <= BUFFER_SIZE;
    Partition.HeightByBranch(N, p, i);
    Partition.HeightByBranch(M, p, i);
  }

  /** Blocks with these headers have this frame shape, and the other way round. */
  lemma ImageShape(p: BlockVal, q: BlockVal, p': BlockVal, q': BlockVal)
    requires p'.id == p.id && p'.sta == p.sta && p'.height == p.height && |p'.eles| == |p.eles|
    requires q'.id == q.id && q'.sta == q.sta && q'.height == q.height && |q'.eles| == |q.eles|
    ensures WellTyped(PairImage(p, q)) && SameShape(PairImage(p', q'), PairImage(p, q))
    ensures PairImage(p', q')[AGE] == Int(p'.age)
    ensures PairImage(p', q')[QBase(PairImage(p, q)) + AGE] == Int(q'.age)
  {
    ImageIsWellTyped(p, q);
    assert PairImage(p, q) + [] == PairImage(p, q);
    FrameRoundTrip(p, q, []);
    var n := |Image(p)|;
    forall k | 0 <= k < HEADER
      ensures PairImage(p, q)[k] == Image(p)[k] && PairImage(p, q)[n + k] == Image(q)[k]
      ensures PairImage(p', q')[k] == Image(p')[k] && PairImage(p', q')[n + k] == Image(q')[k]
    {
    }
  }

  lemma ShapeParses(x: seq<Cell>, p: BlockVal, q: BlockVal)
    requires WellTyped(PairImage(p, q)) && SameShape(x, PairImage(p, q))
    ensures var (p', q') := ParsePair(x);
            && p'.id == p.id && p'.sta == p.sta && p'.height == p.height && |p'.eles| == |p.eles|
            && q'.id == q.id && q'.sta == q.sta && q'.height == q.height && |q'.eles| == |q.eles|
            && x[AGE] == Int(p'.age) && x[QBase(PairImage(p, q)) + AGE] == Int(q'.age)
  {
    var y := PairImage(p, q);
    assert y + [] == y;
    FrameRoundTrip(p, q, []);
    ShapeIsFrame(x, y);
    var n := QBase(y);
    assert ParsePair(y) == (p, q);
    assert IntAt(y, ID) == p.id && IntAt(y, n + ID) == q.id;
  }

  /** A sample changes elements only. */
  lemma SampleStepKeepsShape(rnd: Random, i: nat, t: nat, s: nat, x: seq<Cell>, p: BlockVal, q: BlockVal)
    requires WellTyped(PairImage(p, q)) && SameShape(x, PairImage(p, q))
    ensures SameShape(SampleStep(rnd, i, t, s, x), PairImage(p, q))
    ensures SameAges(SampleStep(rnd, i, t, s, x), x)
  {
    hide ParsePair, PairImage, Draws;
    var (p', q') := ParsePair(x);
    ShapeParses(x, p, q);
    ShapeIsFrame(x, PairImage(p, q));
    if Workable(p') && Workable(q') && s < Sgd.SAMPLE_NUM {
      var d := Draws(rnd, i, t);
      var r := Sgd.DrawnSample(p'.eles, q'.eles, p'.height, q'.height, d[2 * s], d[2 * s + 1]);
      ImageShape(p, q, p'.(eles := r.0), q'.(eles := r.1));
    }
  }

  /** From three workers on, as far as the PS's arrays reach, the program meets every assumption of the protocol. */
  lemma ConfigureIsValid(p: nat, rnd: Random)
    requires 3 <= p <= CAP
    ensures ValidConfig(Configure(p, rnd))
    ensures Usable(p) ==> forall i: nat | i < p :: Workable(InitP(p, i)) && Workable(InitQ(p, i))
  {
    hide PairImage, SampleStep;
    var cfg := Configure(p, rnd);
    forall i | 0 <= i < p
      ensures IsFrame(cfg.init[i]) && |cfg.init[i]| <= cfg.cap
      ensures IntAt(cfg.init[i], ID) == i && IntAt(cfg.init[i], QBase(cfg.init[i]) + ID) == i
    {
      InitParses(p, i);
      InitFits(p, i);
    }
    forall i: nat, t: nat, s: nat, x: seq<Cell> {:trigger cfg.micro(i, t, s, x)} | i < p && SameShape(x, cfg.init[i])
      ensures SameShape(cfg.micro(i, t, s, x), cfg.init[i]) && SameAges(cfg.micro(i, t, s, x), x)
    {
      InitParses(p, i);
      SampleStepKeepsShape(rnd, i, t, s, x, InitP(p, i), InitQ(p, i));
    }
  }

  // ---------- What a run computes ----------

  /** The factors of worker i after k calls of FakeSubMF, with nobody else around. */
  function Factors(p: nat, rnd: Random, i: nat, k: nat): (r: (seq<real>, seq<real>))
    requires p > 0 && PHeight(p, i) > 0 && QHeight(p, i) > 0
    ensures Sgd.Holds(r.0, PHeight(p, i)) && Sgd.Holds(r.1, QHeight(p, i))
  {
    if k == 0 then (InitP(p, i).eles, InitQ(p, i).eles)
    else
      var (pe, qe) := Factors(p, rnd, i, k - 1);
      Sgd.Samples(pe, qe, PHeight(p, i), QHeight(p, i), Draws(rnd, i, k - 1), Sgd.SAMPLE_NUM)
  }

  /** The first n values that random() returns in worker i. */
  function Stream(rnd: Random, i: nat, n: nat): (r: seq<nat>)
    ensures |r| == n && forall m | 0 <= m < n :: r[m] == rnd(i, m)
  {
    seq(n, m requires m >= 0 => rnd(i, m))
  }

  /** k rounds are k times 90000 samples in one go, drawn from random() without a gap or a repetition. */
  lemma {:induction false} FactorsAreOneRun(p: nat, rnd: Random, i: nat, k: nat)
    requires p > 0 && PHeight(p, i) > 0 && QHeight(p, i) > 0
    ensures Factors(p, rnd, i, k) ==
            Sgd.Samples(InitP(p, i).eles, InitQ(p, i).eles, PHeight(p, i), QHeight(p, i),
                        Stream(rnd, i, 2 * (Sgd.SAMPLE_NUM * k)), Sgd.SAMPLE_NUM * k)
  {
    hide PHeight, QHeight, Sgd.Samples;
    var pe, qe, ph, qh := InitP(p, i).eles, InitQ(p, i).eles, PHeight(p, i), QHeight(p, i);
    assert Sgd.Holds(pe, ph) && Sgd.Holds(qe, qh);
    hide InitP, InitQ;
    if k == 0 {
      Sgd.NoSamples(pe, qe, ph, qh, Stream(rnd, i, 0));
    } else {
      var draws, m := Stream(rnd, i, 2 * (Sgd.SAMPLE_NUM * k)), Sgd.SAMPLE_NUM * (k - 1);
      FactorsAreOneRun(p, rnd, i, k - 1);
      Sgd.SamplesSplit(pe, qe, ph, qh, draws, m, Sgd.SAMPLE_NUM);
      assert draws[..2 * m] == Stream(rnd, i, 2 * m);
      assert draws[2 * m..] == Draws(rnd, i, k - 1);
    }
  }

  lemma SampleStepParses(rnd: Random, i: nat, t: nat, s: nat, x: seq<Cell>)
    requires s < Sgd.SAMPLE_NUM && Workable(ParsePair(x).0) && Workable(ParsePair(x).1)
    ensures var (p, q) := ParsePair(x); var d := Draws(rnd, i, t);
            var r := Sgd.DrawnSample(p.eles, q.eles, p.height, q.height, d[2 * s], d[2 * s + 1]);
            ParsePair(SampleStep(rnd, i, t, s, x)) == (p.(eles := r.0), q.(eles := r.1))
  {
    hide ParsePair, PairImage, Draws;
    var (p, q) := ParsePair(x);
    var d := Draws(rnd, i, t);
    var r := Sgd.DrawnSample(p.eles, q.eles, p.height, q.height, d[2 * s], d[2 * s + 1]);
    var y := PairImage(p.(eles := r.0), q.(eles := r.1));
    FrameRoundTrip(p.(eles := r.0), q.(eles := r.1), []);
    assert y + [] == y;
  }

  /** The protocol's compute step on cells is FakeSubMF on the elements. */
  lemma {:induction false} FoldIsSamples(p: nat, rnd: Random, i: nat, t: nat, s: nat, x: seq<Cell>)
    requires p > 0 && s <= Sgd.SAMPLE_NUM && Workable(ParsePair(x).0) && Workable(ParsePair(x).1)
    ensures var (bp, bq) := ParsePair(x);
            var r := Sgd.Samples(bp.eles, bq.eles, bp.height, bq.height, Draws(rnd, i, t), s);
            ParsePair(Fold(Configure(p, rnd), i, t, s, x)) == (bp.(eles := r.0), bq.(eles := r.1))
  {
    hide ParsePair, Draws, SampleStep, Sgd.DrawnSample;
    if s > 0 {
      var prev := Fold(Configure(p, rnd), i, t, s - 1, x);
      FoldIsSamples(p, rnd, i, t, s - 1, x);
      SampleStepParses(rnd, i, t, s - 1, prev);
      assert Fold(Configure(p, rnd), i, t, s, x) == SampleStep(rnd, i, t, s - 1, prev);
    }
  }

  lemma StampParses(x: seq<Cell>, age: int)
    requires IsFrame(x)
    ensures ParsePair(Stamp(x, age)) == (ParsePair(x).0.(age := age), ParsePair(x).1.(age := age))
  {
    var y, n := Stamp(x, age), QBase(x);
    assert forall k: nat | k != AGE && k != n + AGE :: Get(y, k) == Get(x, k);
    assert QBase(y) == n;
    assert Elements(y, 0) == Elements(x, 0);
    assert Elements(y, n) == Elements(x, n);
  }

  /** One round of the protocol on a pair: both ages stamped, then FakeSubMF. */
  lemma RoundIsSubMF(p: nat, rnd: Random, i: nat, t: nat, x: seq<Cell>)
    requires p > 0 && IsFrame(x) && Workable(ParsePair(x).0) && Workable(ParsePair(x).1)
    ensures var (bp, bq) := ParsePair(x);
            var r := Sgd.Samples(bp.eles, bq.eles, bp.height, bq.height, Draws(rnd, i, t), Sgd.SAMPLE_NUM);
            ParsePair(Computed(Configure(p, rnd), i, t, x)) == (bp.(age := t, eles := r.0), bq.(age := t, eles := r.1))
  {
    hide ParsePair, Draws, SampleStep, Sgd.Samples, IsFrame, Stamp;
    StampParses(x, t);
    FoldIsSamples(p, rnd, i, t, Sgd.SAMPLE_NUM, Stamp(x, t));
  }

  lemma BodyIsFrame(p: nat, rnd: Random, i: nat, k: nat)
    requires 3 <= p <= CAP && i < p
    ensures IsFrame(Body(Configure(p, rnd), i, k))
  {
    var cfg := Configure(p, rnd);
    ConfigureIsValid(p, rnd);
    BodyKeepsShape(cfg, i, k);
    ShapeIsFrame(Body(cfg, i, k), cfg.init[i]);
  }

  function Last(k: nat): int { if k == 0 then 0 else k - 1 }

  /** Body k of the protocol is the k-th pair of factors, in the blocks partitioning made. */
  lemma {:induction false} BodyIsFactors(p: nat, rnd: Random, i: nat, k: nat)
    requires Usable(p) && i < p
    ensures PHeight(p, i) > 0 && QHeight(p, i) > 0
    ensures var f := Factors(p, rnd, i, k);
            ParsePair(Body(Configure(p, rnd), i, k)) ==
            (InitP(p, i).(age := Last(k), eles := f.0), InitQ(p, i).(age := Last(k), eles := f.1))
  {
    hide ParsePair, PairImage, SampleStep, Draws, Fill, Sgd.Samples, Computed;
    assert Workable(InitP(p, i)) && Workable(InitQ(p, i));
    hide Partition.Height, PHeight, QHeight;
    if k == 0 {
      InitParses(p, i);
    } else {
      BodyIsFactors(p, rnd, i, k - 1);
      BodyIsFrame(p, rnd, i, k - 1);
      hide Configure;
      RoundIsSubMF(p, rnd, i, k - 1, Body(Configure(p, rnd), i, k - 1));
    }
  }

  lemma ParsesButAges(x: seq<Cell>, y: seq<Cell>)
    requires EqualButAges(x, y)
    ensures ParsePair(x).0.(age := 0) == ParsePair(y).0.(age := 0)
    ensures ParsePair(x).1.(age := 0) == ParsePair(y).1.(age := 0)
  {
    var n := QBase(y);
    assert forall k: nat | k != AGE && k != n + AGE :: Get(x, k) == Get(y, k);
    assert QBase(x) == n;
    assert Elements(x, 0) == Elements(y, 0);
    assert Elements(x, n) == Elements(y, n);
  }

  /**
   End to end: in every reachable state of every interleaving, outside an unpack, the PS's blocks i
   are those of the partition and hold what `recved_iter[i] + 1` calls of FakeSubMF make of the
   initial values.
   */
  lemma BlocksHoldFactors(p: nat, rnd: Random, s: State, i: nat)
    requires Usable(p) && Reachable(Configure(p, rnd), s) && i < p
    ensures |s.ws| == |s.blocks| == p && PHeight(p, i) > 0 && QHeight(p, i) > 0
    ensures !Unpacking(s.ws[i].up) ==>
              var (bp, bq) := ParsePair(s.blocks[i]);
              var f := Factors(p, rnd, i, s.ws[i].up.unpacked);
              && bp.(age := 0) == InitP(p, i).(eles := f.0)
              && bq.(age := 0) == InitQ(p, i).(eles := f.1)
  {
    var cfg := Configure(p, rnd);
    ConfigureIsValid(p, rnd);
    BlocksAreComputed(cfg, s, i);
    hide ParsePair, ValidConfig, Factors, Body, EqualButAges;
    var r := s.ws[i].up.unpacked;
    BodyIsFactors(p, rnd, i, r);
    if !Unpacking(s.ws[i].up) {
      ParsesButAges(s.blocks[i], Body(cfg, i, r));
    }
  }

  /** In bytes, `buf_len` at either end is the length that the PS staged for worker i. */
  lemma BufLenIsFrameBytes(p: nat, rnd: Random, s: State, i: nat, d: Dir)
    requires 3 <= p <= CAP && Reachable(Configure(p, rnd), s) && i < p
    ensures |s.ws| == p
    ensures var ch := ChanOf(s.ws[i], d);
            ch.rcvd > 0 ==>
              2 * STRUCT_SIZE + DOUBLE_SIZE * (ch.rlen - 2 * HEADER) == Partition.FrameBytes(p, i)
  {
    var cfg := Configure(p, rnd);
    ConfigureIsValid(p, rnd);
    LengthIsDelivered(cfg, s, i, d);
    var ch := ChanOf(s.ws[i], d);
    FrameLength(cfg, i, d, if ch.rcvd > 0 then ch.rcvd - 1 else 0);
    assert |cfg.init[i]| == |PairImage(InitP(p, i), InitQ(p, i))|;
    hide PairImage, ValidConfig, Reachable, Unpacking, FrameNo, SampleStep;
  }

  // ---------- Bounded iterates ----------

  lemma {:induction false} FactorsBounded(p: nat, rnd: Random, i: nat, k: nat)
    requires p > 0 && i <= 15 && PHeight(p, i) > 0 && QHeight(p, i) > 0
    ensures var f := Factors(p, rnd, i, k);
            Sgd.RowsBounded(f.0, PHeight(p, i), Sgd.LIMIT) && Sgd.RowsBounded(f.1, QHeight(p, i), Sgd.LIMIT)
  {
    var ph, qh := PHeight(p, i), QHeight(p, i);
    hide Draws, Sgd.Samples, PHeight, QHeight, Norm2;
    if k == 0 {
      var pe, qe := InitP(p, i).eles, InitQ(p, i).eles;
      forall x | 0 <= x < ph ensures Norm2(Sgd.Row(pe, x)) <= Sgd.LIMIT {
        Sgd.InRange(x, ph);
        Sgd.InRange(0, qh);
        Sgd.InitialRowsBounded(i, Sgd.Row(pe, x), Sgd.Row(qe, 0));
      }
      forall x | 0 <= x < qh ensures Norm2(Sgd.Row(qe, x)) <= Sgd.LIMIT {
        Sgd.InRange(0, ph);
        Sgd.InRange(x, qh);
        Sgd.InitialRowsBounded(i, Sgd.Row(pe, 0), Sgd.Row(qe, x));
      }
    } else {
      FactorsBounded(p, rnd, i, k - 1);
      var f := Factors(p, rnd, i, k - 1);
      Sgd.SamplesKeepBound(f.0, f.1, ph, qh, Draws(rnd, i, k - 1), Sgd.SAMPLE_NUM);
    }
  }

  /** A frame whose first cells have been overwritten by another of the same shape. */
  lemma TornParses(x: seq<Cell>, k: nat, y: seq<Cell>, z: seq<Cell>, p: BlockVal, q: BlockVal)
    requires WellTyped(PairImage(p, q)) && SameShape(y, PairImage(p, q)) && SameShape(z, PairImage(p, q))
    requires Torn(x, k, y, z)
    ensures var xs, ys, zs := ParsePair(x), ParsePair(y), ParsePair(z);
            && xs.0.height == p.height && Sgd.TornFrom(xs.0.eles, ys.0.eles, zs.0.eles)
            && xs.1.height == q.height && Sgd.TornFrom(xs.1.eles, ys.1.eles, zs.1.eles)
  {
    ShapeParses(y, p, q);
    ShapeParses(z, p, q);
    ShapeIsFrame(y, PairImage(p, q));
    ShapeIsFrame(z, PairImage(p, q));
    var n := QBase(y);
    assert forall c: nat :: Get(x, c) == Get(y, c) || Get(x, c) == Get(z, c);
    assert QBase(x) == n;
  }

  /** Both blocks of a frame have rows of squared norm at most `bound`. */
  ghost predicate PairBounded(x: seq<Cell>, bound: real) {
    var (bp, bq) := ParsePair(x);
    && Workable(bp) && Sgd.RowsBounded(bp.eles, bp.height, bound)
    && Workable(bq) && Sgd.RowsBounded(bq.eles, bq.height, bound)
  }

  lemma BodyBounded(p: nat, rnd: Random, i: nat, k: nat)
    requires Usable(p) && i < p && i <= 15
    ensures PairBounded(Body(Configure(p, rnd), i, k), Sgd.LIMIT)
    ensures PairBounded(DownFrame(Configure(p, rnd), i, k), Sgd.LIMIT)
  {
    hide ParsePair, Factors, PHeight, QHeight, Sgd.RowsBounded, Stamp;
    ConfigureIsValid(p, rnd);
    assert Workable(InitP(p, i)) && Workable(InitQ(p, i));
    BodyIsFactors(p, rnd, i, k);
    FactorsBounded(p, rnd, i, k);
    BodyIsFrame(p, rnd, i, k);
    StampParses(Body(Configure(p, rnd), i, k), k);
  }

  lemma BlockCases(cfg: Config, s: State, i: nat)
    requires i < |s.ws| == |s.blocks| == |cfg.init| && BlockIsComputed(cfg, s, i)
    ensures var r := s.ws[i].up.unpacked;
            if s.ws[i].up.upc.UCopy?
            then Torn(s.blocks[i], s.ws[i].up.upc.k, Body(cfg, i, r + 1), DownFrame(cfg, i, r))
            else EqualButAges(s.blocks[i], Body(cfg, i, r)) || s.blocks[i] == Body(cfg, i, r + 1)
  {
    hide Body, DownFrame, EqualButAges;
  }

  lemma BoundedButAges(x: seq<Cell>, y: seq<Cell>)
    requires EqualButAges(x, y) && PairBounded(y, Sgd.LIMIT)
    ensures PairBounded(x, Sgd.LIMIT)
  {
    ParsesButAges(x, y);
    hide ParsePair, EqualButAges, Sgd.RowsBounded;
    var (p, q) := ParsePair(x);
    assert p.eles == p.(age := 0).eles && q.eles == q.(age := 0).eles;
    assert p.height == p.(age := 0).height && q.height == q.(age := 0).height;
  }

  lemma BoundedIsMonotone(x: seq<Cell>)
    requires PairBounded(x, Sgd.LIMIT)
    ensures PairBounded(x, 2.0 * Sgd.LIMIT)
  {
    hide ParsePair, Norm2;
  }

  lemma TornBounded(p: nat, rnd: Random, i: nat, r: nat, k: nat, x: seq<Cell>)
    requires Usable(p) && i < p && i <= 15
    requires Torn(x, k, Body(Configure(p, rnd), i, r + 1), DownFrame(Configure(p, rnd), i, r))
    ensures PairBounded(x, 2.0 * Sgd.LIMIT)
  {
    var cfg := Configure(p, rnd);
    var y, z := Body(cfg, i, r + 1), DownFrame(cfg, i, r);
    ConfigureIsValid(p, rnd);
    BodyBounded(p, rnd, i, r);
    BodyBounded(p, rnd, i, r + 1);
    RoundExists(cfg, i, r);
    InitParses(p, i);
    TornParses(x, k, y, z, InitP(p, i), InitQ(p, i));
    BodyIsFactors(p, rnd, i, r + 1);
    hide ParsePair, PairImage, Body, DownFrame, Factors, PHeight, QHeight, Sgd.RowsBounded, Torn, SampleStep;
    var (xp, xq) := ParsePair(x);
    Sgd.TornRowsBounded(xp.eles, ParsePair(y).0.eles, ParsePair(z).0.eles, xp.height, Sgd.LIMIT);
    Sgd.TornRowsBounded(xq.eles, ParsePair(y).1.eles, ParsePair(z).1.eles, xq.height, Sgd.LIMIT);
  }

  /**
   With up to sixteen workers no row that the PS holds ever leaves the ball of squared radius 666.6,
   except that a row of which an unpack has replaced only the first elements stays within twice that.
   */
  lemma BlocksBounded(p: nat, rnd: Random, s: State, i: nat)
    requires 3 <= p <= 16 && Reachable(Configure(p, rnd), s) && i < p
    ensures |s.ws| == |s.blocks| == p
    ensures PairBounded(s.blocks[i], 2.0 * Sgd.LIMIT)
    ensures !s.ws[i].up.upc.UCopy? ==> PairBounded(s.blocks[i], Sgd.LIMIT)
  {
    hide PairBounded, BlockIsComputed, EqualButAges, SameShape, Body, DownFrame;
    UsableIff(p);
    ConfigureIsValid(p, rnd);
    var cfg := Configure(p, rnd);
    BlocksAreComputed(cfg, s, i);
    var r := s.ws[i].up.unpacked;
    BodyBounded(p, rnd, i, r);
    BodyBounded(p, rnd, i, r + 1);
    BlockCases(cfg, s, i);
    if s.ws[i].up.upc.UCopy? {
      TornBounded(p, rnd, i, r, s.ws[i].up.upc.k, s.blocks[i]);
    } else {
      if EqualButAges(s.blocks[i], Body(cfg, i, r)) {
        BoundedButAges(s.blocks[i], Body(cfg, i, r));
      }
      BoundedIsMonotone(s.blocks[i]);
    }
  }

  /**
   The program as configured can hang, even if every thread gets its turn again and again, and it can
   finish; which of the two is decided by its flags.
   */
  lemma ProgramCanHang(p: nat, rnd: Random)
    requires Usable(p)
    ensures exists s :: Reachable(Configure(p, rnd), s) && !Finishable(Configure(p, rnd), s)
    ensures exists s, f :: && Init(Configure(p, rnd), s) && Fairness.Fair(Configure(p, rnd), f)
                           && Fairness.NeverEnds(Configure(p, rnd), s, f)
    ensures exists s :: Reachable(Configure(p, rnd), s) && Exited(Configure(p, rnd), s)
  {
    var cfg := Configure(p, rnd);
    ConfigureIsValid(p, rnd);
    hide Configure;
    DoomIffThreeRounds(cfg);
    var s :| Reachable(cfg, s) && Doomed(cfg, s);
    FinishableIffNotDoomed(cfg, s);
    Fairness.FairScheduleHangsIffThreeRounds(cfg);
    var s0 := Start(cfg);
    InitHolds(cfg, s0);
    var acts, s' := CanFinish(cfg, s0);
    assert Reachable(cfg, s');
  }

  /** Every worker's counter can lag, and READY can come early on each of its connections. */
  lemma ProgramRaces(p: nat, rnd: Random, i: nat, d: Dir)
    requires Usable(p) && i < p
    ensures exists s :: Reachable(Configure(p, rnd), s) && i < |s.ws| && Races.Lags(s.ws[i])
    ensures exists s :: Reachable(Configure(p, rnd), s) && i < |s.ws| && Races.EarlyReady(ChanOf(s.ws[i], d))
  {
    ConfigureIsValid(p, rnd);
    Races.CounterLagsIffTwoRounds(Configure(p, rnd), i);
    Races.ReadyComesEarlyIffTwoRounds(Configure(p, rnd), i, d);
  }
}
