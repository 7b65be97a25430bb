/**
 What the invariant means: the concurrent system computes what the sequential loop computes, no
 buffer or block is ever touched by two threads at once, and every frame arrives once, in order.
 */
module Safety {
  import opened Cells
  import opened Link
  import opened Rounds
  import opened Invariant

  // ---------- Counters ----------

  /** The counters around the ring, and how far two workers can be apart. */
  lemma CounterChain(cfg: Config, s: State, i: nat, j: nat)
    requires ValidConfig(cfg) && Reachable(cfg, s) && i < |cfg.init| && j < |cfg.init|
    ensures |s.ws| == |cfg.init|
    ensures var w := s.ws[i];
            && w.up.unpacked <= w.up.rcvd <= w.up.posted <= Flagged(w.up) <= Done(w)
            && Done(w) <= w.down.unpacked <= w.down.rcvd <= w.down.posted <= Flagged(w.down) <= s.completed + 1
            && s.completed <= s.ws[j].up.unpacked
    ensures s.iterT - 1 <= s.completed <= s.iterT
    ensures Done(s.ws[i]) <= Done(s.ws[j]) + 1
  {
    ReachableInv(cfg, s);
    InvChain(cfg, s, i);
    InvChain(cfg, s, j);
  }

  /**
   The worker sends when `to_send_age == completed_iter`. Whenever its thread evaluates that guard,
   `<=` would give the same answer: the equality is never skipped past. The counter can lag, by one,
   between raising the flag and `to_send_age++`; `Races.CounterLagsIffTwoRounds` says when it does.
   */
  lemma EqualityGuardSuffices(cfg: Config, s: State, i: nat)
    requires ValidConfig(cfg) && Reachable(cfg, s) && i < |cfg.init|
    ensures |s.ws| == |cfg.init|
    ensures var w := s.ws[i];
            && (w.up.spc.SIdle? ==> (w.up.staged == w.completed <==> w.up.staged <= w.completed))
            && (w.completed > w.up.staged ==> w.up.spc.SCount? && w.completed == w.up.staged + 1)
  {
    ReachableInv(cfg, s);
    InvChain(cfg, s, i);
  }

  // ---------- Refinement of the sequential loop ----------

  /** Workers 0..i-1 have computed in round k. */
  function SeqWorkers(cfg: Config, k: nat, i: nat, pairs: seq<seq<Cell>>): (r: seq<seq<Cell>>)
    requires i <= |pairs|
    ensures |r| == |pairs|
  {
    if i == 0 then pairs
    else
      var q := SeqWorkers(cfg, k, i - 1, pairs);
      q[i - 1 := Computed(cfg, i - 1, k, q[i - 1])]
  }

  /** "For each round, for each worker, compute", run by one thread for k rounds. */
  function SeqRounds(cfg: Config, k: nat): (r: seq<seq<Cell>>)
    ensures |r| == |cfg.init|
  {
    if k == 0 then cfg.init
    else SeqWorkers(cfg, k - 1, |cfg.init|, SeqRounds(cfg, k - 1))
  }

  lemma {:induction false} SeqWorkersAt(cfg: Config, k: nat, i: nat, pairs: seq<seq<Cell>>)
    requires i <= |pairs|
    ensures forall j | 0 <= j < |pairs| ::
              SeqWorkers(cfg, k, i, pairs)[j] == if j < i then Computed(cfg, j, k, pairs[j]) else pairs[j]
  {
    if i > 0 {
      SeqWorkersAt(cfg, k, i - 1, pairs);
    }
  }

  lemma {:induction false} SeqRoundsAt(cfg: Config, k: nat)
    ensures forall i | 0 <= i < |cfg.init| :: SeqRounds(cfg, k)[i] == Body(cfg, i, k)
  {
    if k > 0 {
      SeqRoundsAt(cfg, k - 1);
      SeqWorkersAt(cfg, k - 1, |cfg.init|, SeqRounds(cfg, k - 1));
    }
  }

  /** The same frame but for the two age fields. */
  ghost predicate EqualButAges(x: seq<Cell>, y: seq<Cell>) {
    && |x| == |y|
    && forall k | 0 <= k < |x| && k != AGE && k != QBase(y) + AGE :: x[k] == y[k]
  }

  /** The first k cells of y are followed by those of z. */
  ghost predicate Torn(x: seq<Cell>, k: nat, y: seq<Cell>, z: seq<Cell>) {
    |x| == |y| == |z| && forall c | 0 <= c < |x| :: x[c] == if c < k then y[c] else z[c]
  }

  predicate Unpacking(ch: Chan) {
    ch.upc.UCopy? || ch.upc.UCount?
  }

  /**
   Outside an unpack, the pair the PS holds for worker i is the initial pair after exactly
   `recved_iter[i] + 1` compute steps. During an unpack it is, cell by cell, between that pair as it
   was sent and the next one.
   */
  ghost predicate BlockIsComputed(cfg: Config, s: State, i: nat)
    requires i < |s.ws| == |s.blocks| == |cfg.init|
  {
    var w, r := s.ws[i], s.ws[i].up.unpacked;
    && (!Unpacking(w.up) ==> EqualButAges(s.blocks[i], Body(cfg, i, r)))
    && (w.up.upc.UCopy? ==> Torn(s.blocks[i], w.up.upc.k, Body(cfg, i, r + 1), DownFrame(cfg, i, r)))
    && (w.up.upc.UCount? ==> s.blocks[i] == Body(cfg, i, r + 1))
  }

  lemma InvBlocks(cfg: Config, s: State, i: nat)
    requires ValidConfig(cfg) && Inv(cfg, s) && i < |cfg.init|
    ensures BlockIsComputed(cfg, s, i)
  {
    hide LinkInv, MemInv;
    assert WorkerOk(cfg, s, i);
    RoundExists(cfg, i, s.ws[i].up.unpacked);
  }

  lemma BlocksAreComputed(cfg: Config, s: State, i: nat)
    requires ValidConfig(cfg) && Reachable(cfg, s) && i < |cfg.init|
    ensures |s.ws| == |s.blocks| == |cfg.init| && BlockIsComputed(cfg, s, i)
  {
    ReachableInv(cfg, s);
    InvBlocks(cfg, s, i);
  }

  /** About to execute `completed_iter = iter_t`: CanMerge has returned true. */
  predicate Merging(s: State) {
    s.mpc.Scan? && s.mpc.j >= |s.ws|
  }

  /** When round k merges, every worker has had exactly k rounds and the PS holds the sequential state. */
  lemma MergeRefinesSequential(cfg: Config, s: State)
    requires ValidConfig(cfg) && Reachable(cfg, s) && Merging(s)
    ensures |s.ws| == |s.blocks| == |cfg.init|
    ensures forall i | 0 <= i < |s.ws| :: s.ws[i].up.unpacked == s.iterT
    ensures s.blocks == SeqRounds(cfg, s.iterT)
  {
    ReachableInv(cfg, s);
    SeqRoundsAt(cfg, s.iterT);
    forall i | 0 <= i < |s.ws|
      ensures s.ws[i].up.unpacked == s.iterT && s.blocks[i] == Body(cfg, i, s.iterT)
    {
      InvChain(cfg, s, i);
      assert WorkerOk(cfg, s, i);
    }
  }

  /** A bulk-synchronous machine: a worker may do its next round when no other worker is behind it. */
  datatype Bsp = Bsp(done: seq<nat>, pairs: seq<seq<Cell>>)

  ghost predicate BspStep(cfg: Config, b: Bsp, b': Bsp, i: nat) {
    && |b.done| == |b.pairs| && i < |b.done|
    && (forall j | 0 <= j < |b.done| :: b.done[i] <= b.done[j])
    && b'.done == b.done[i := b.done[i] + 1]
    && b'.pairs == b.pairs[i := Computed(cfg, i, b.done[i], b.pairs[i])]
  }

  function Abstract(cfg: Config, s: State): Bsp
    requires |s.ws| == |cfg.init|
  {
    Bsp(seq(|s.ws|, i requires 0 <= i < |s.ws| => s.ws[i].up.unpacked),
        seq(|s.ws|, i requires 0 <= i < |s.ws| => Body(cfg, i, s.ws[i].up.unpacked)))
  }

  /** The PS's counters and, outside an unpack, its memory are those of the machine. */
  ghost predicate Shows(s: State, b: Bsp) {
    && |b.done| == |b.pairs| == |s.ws| == |s.blocks|
    && forall i | 0 <= i < |s.ws| ::
         && b.done[i] == s.ws[i].up.unpacked
         && (!Unpacking(s.ws[i].up) ==> EqualButAges(s.blocks[i], b.pairs[i]))
  }

  /** The step `recved_iter[i]++`. */
  predicate Counts(s: State, a: Actor) {
    a.On? && a.d.Up? && a.part.Receiver? && a.i < |s.ws| && s.ws[a.i].up.upc.UCount?
  }

  /**
   Every step of every thread is a stutter of that machine, except `recved_iter[i]++`; before and
   after it the blocks in the PS's memory are the pairs of the machine.
   */
  lemma StepRefinesBsp(cfg: Config, s: State, a: Actor)
    requires ValidConfig(cfg) && Reachable(cfg, s) && Enabled(s, a)
    ensures |s.ws| == |cfg.init| == |Step(cfg, s, a).ws|
    ensures var s' := Step(cfg, s, a); var b, b' := Abstract(cfg, s), Abstract(cfg, s');
            && Shows(s, b) && Shows(s', b')
            && if Counts(s, a) then BspStep(cfg, b, b', a.i) && s'.blocks[a.i] == b'.pairs[a.i] else b' == b
  {
    hide WorkerOk, Step, Enabled, Shows, Abstract, BspStep;
    ReachableInv(cfg, s);
    StepKeeps(cfg, s, a);
    InvShows(cfg, s);
    InvShows(cfg, Step(cfg, s, a));
    if Counts(s, a) {
      CountIsBspStep(cfg, s, a);
    } else {
      UnpackedSame(cfg, s, a);
      SameCountsSameBsp(cfg, s, Step(cfg, s, a));
    }
  }

  lemma InvShows(cfg: Config, s: State)
    requires ValidConfig(cfg) && Inv(cfg, s)
    ensures Shows(s, Abstract(cfg, s))
  {
    hide WorkerOk, EqualButAges;
    forall i | 0 <= i < |s.ws| && !Unpacking(s.ws[i].up)
      ensures EqualButAges(s.blocks[i], Abstract(cfg, s).pairs[i])
    {
      InvBlocks(cfg, s, i);
    }
  }

  lemma SameCountsSameBsp(cfg: Config, s: State, s': State)
    requires |s'.ws| == |s.ws| == |cfg.init|
    requires forall j | 0 <= j < |s.ws| :: s'.ws[j].up.unpacked == s.ws[j].up.unpacked
    ensures Abstract(cfg, s') == Abstract(cfg, s)
  {
  }

  lemma CountIsBspStep(cfg: Config, s: State, a: Actor)
    requires ValidConfig(cfg) && Inv(cfg, s) && Enabled(s, a) && Counts(s, a)
    ensures |Step(cfg, s, a).ws| == |Step(cfg, s, a).blocks| == |s.ws|
    ensures BspStep(cfg, Abstract(cfg, s), Abstract(cfg, Step(cfg, s, a)), a.i)
    ensures Step(cfg, s, a).blocks[a.i] == Abstract(cfg, Step(cfg, s, a)).pairs[a.i]
  {
    hide WorkerOk, EqualButAges;
    CountingIsLate(cfg, s, a.i);
    InvBlocks(cfg, s, a.i);
    forall j | 0 <= j < |s.ws| ensures s.ws[a.i].up.unpacked <= s.ws[j].up.unpacked {
      InvChain(cfg, s, j);
    }
  }

  lemma CountingIsLate(cfg: Config, s: State, i: nat)
    requires ValidConfig(cfg) && Inv(cfg, s) && i < |s.ws| && s.ws[i].up.upc.UCount?
    ensures s.ws[i].up.unpacked == s.completed
  {
    assert WorkerOk(cfg, s, i);
    InvChain(cfg, s, i);
  }

  lemma UnpackedSame(cfg: Config, s: State, a: Actor)
    requires Enabled(s, a) && !Counts(s, a)
    ensures var s' := Step(cfg, s, a);
            |s'.ws| == |s.ws| && forall j | 0 <= j < |s.ws| :: s'.ws[j].up.unpacked == s.ws[j].up.unpacked
  {
  }

  // ---------- Exclusion without locks ----------

  /** The sending thread of channel d touches the pair: stamping it, or reading it into the buffer. */
  predicate Staging(w: Worker, d: Dir) {
    var spc := ChanOf(w, d).spc;
    spc.SStampP? || spc.SStampQ? || spc.SPack?
  }

  predicate Unpacks(w: Worker, d: Dir) {
    Unpacking(ChanOf(w, d))
  }

  /**
   At most one of the eight activities that touch worker i's pair or a buffer it travels through is
   going on: staging, transfer and unpacking in either direction, and computing.
   */
  lemma OneActivity(cfg: Config, s: State, i: nat)
    requires ValidConfig(cfg) && Reachable(cfg, s) && i < |cfg.init|
    ensures |s.ws| == |cfg.init|
    ensures var w := s.ws[i];
            One(Staging(w, Down)) + One(!w.down.hs.wire.Quiet?) + One(Unpacks(w, Down)) + One(w.pc.PRun?)
            + One(Staging(w, Up)) + One(!w.up.hs.wire.Quiet?) + One(Unpacks(w, Up)) + One(Merging(s)) <= 1
  {
    hide DataInv, MemInv, BlkInv;
    ReachableInv(cfg, s);
    InvChain(cfg, s, i);
    assert WorkerOk(cfg, s, i);
  }

  /** A step of one worker's threads, on either machine, leaves every other worker and block alone. */
  lemma OtherBlocksUntouched(cfg: Config, s: State, a: Actor, j: nat)
    requires ValidConfig(cfg) && Reachable(cfg, s) && Enabled(s, a) && j < |cfg.init|
    requires a.Merger? || a.i != j
    ensures |s.ws| == |s.blocks| == |cfg.init|
    ensures |Step(cfg, s, a).ws| == |Step(cfg, s, a).blocks| == |cfg.init|
    ensures Step(cfg, s, a).blocks[j] == s.blocks[j] && Step(cfg, s, a).ws[j] == s.ws[j]
  {
    hide LinkInv, MemInv, BlkInv, RingInv;
    ReachableInv(cfg, s);
    StepKeeps(cfg, s, a);
  }

  // ---------- Buffers ----------

  /** The frame number k that channel d of worker i carries. */
  function FrameNo(cfg: Config, i: nat, d: Dir, k: nat): seq<Cell>
    requires i < |cfg.init|
  {
    if d.Down? then DownFrame(cfg, i, k) else Body(cfg, i, k + 1)
  }

  /**
   A receive buffer is written only when every earlier frame has been fully unpacked, although
   `can_recv` stays true after the first; while it is read, it holds the whole of the next frame.
   That READY itself holds nothing back is `Races.ReadyComesEarlyIffTwoRounds`.
   */
  lemma ReceiveBufferSafe(cfg: Config, s: State, i: nat, d: Dir)
    requires ValidConfig(cfg) && Reachable(cfg, s) && i < |cfg.init|
    ensures |s.ws| == |cfg.init|
    ensures var ch := ChanOf(s.ws[i], d);
            && (ch.hs.wire.Moving? ==>
                  ch.rcvd == ch.unpacked && ch.posted == ch.unpacked + 1 && !Unpacking(ch))
            && (Unpacking(ch) ==>
                  ch.hs.wire.Quiet? && ch.posted == ch.rcvd && FrameNo(cfg, i, d, ch.unpacked) <= ch.rbuf)
            && (ch.unpacked > 0 && !ch.upc.UFlag? ==> ch.canRecv)
  {
    hide CreditInv, MemInv, BlkInv;
    ReachableInv(cfg, s);
    InvChain(cfg, s, i);
    assert WorkerOk(cfg, s, i);
    var ch, r := ChanOf(s.ws[i], d), s.ws[i].up.unpacked;
    if Unpacking(ch) {
      assert ch.unpacked == r;
      assert Starts(ch.rbuf, FrameNo(cfg, i, d, r), |FrameNo(cfg, i, d, r)|);
    }
  }

  /**
   A send buffer is filled for age k only when the write of age k - 1 has been delivered and
   unpacked; while a write is in flight it carries, and the buffer still holds, the frame it announced.
   */
  lemma SendBufferSafe(cfg: Config, s: State, i: nat, d: Dir)
    requires ValidConfig(cfg) && Reachable(cfg, s) && i < |cfg.init|
    ensures |s.ws| == |cfg.init|
    ensures var ch := ChanOf(s.ws[i], d);
            && (Packing(ch) ==> ch.hs.wire.Quiet? && ch.posted == ch.rcvd == ch.unpacked == ch.staged)
            && (ch.hs.wire.Moving? ==>
                  && ch.posted > 0
                  && var x := FrameNo(cfg, i, d, ch.posted - 1);
                     x <= ch.sbuf && ch.hs.wire.len == |x| && Starts(ch.rbuf, x, ch.hs.wire.k))
  {
    hide CreditInv, MemInv, BlkInv;
    ReachableInv(cfg, s);
    InvChain(cfg, s, i);
    assert WorkerOk(cfg, s, i);
    var ch, r := ChanOf(s.ws[i], d), s.ws[i].up.unpacked;
    if ch.hs.wire.Moving? {
      assert ch.posted - 1 == r;
      assert Starts(ch.sbuf, FrameNo(cfg, i, d, r), |FrameNo(cfg, i, d, r)|);
    }
  }

  /** No packing loop and no transfer runs past the end of its source or its destination. */
  lemma StagingInBounds(cfg: Config, s: State, i: nat, d: Dir)
    requires ValidConfig(cfg) && Reachable(cfg, s) && i < |cfg.init|
    ensures |s.ws| == |s.blocks| == |cfg.init|
    ensures var w, ch := s.ws[i], ChanOf(s.ws[i], d);
            && |ch.sbuf| == |ch.rbuf| == cfg.cap
            && (ch.spc.SPack? ==>
                  var src := if d.Down? then s.blocks[i] else w.mem;
                  FrameLen(src) == |src| <= cfg.cap && ch.spc.k <= |src|)
            && (ch.hs.wire.Moving? ==> ch.hs.wire.k <= ch.hs.wire.len <= cfg.cap)
  {
    hide CreditInv;
    ReachableInv(cfg, s);
    InvChain(cfg, s, i);
    assert WorkerOk(cfg, s, i);
    var r := s.ws[i].up.unpacked;
    RoundExists(cfg, i, r);
    ShapeIsFrame(FrameNo(cfg, i, d, r), cfg.init[i]);
  }

  /**
   Nor does an unpacking loop, although it takes its length and its destination from the buffer: the
   PS's in-place copy goes to the block of its own worker and fills it exactly.
   */
  lemma UnpackingInBounds(cfg: Config, s: State, i: nat, d: Dir)
    requires ValidConfig(cfg) && Reachable(cfg, s) && i < |cfg.init|
    ensures |s.ws| == |s.blocks| == |cfg.init|
    ensures var ch := ChanOf(s.ws[i], d);
            && (ch.upc.UCopy? ==> ch.upc.k <= FrameLen(ch.rbuf) <= |ch.rbuf|)
            && (d.Up? && Copies(ch) ==>
                  OwnerOf(ch.rbuf, ch.upc.k) == i && FrameLen(ch.rbuf) == |s.blocks[i]|)
  {
    hide CreditInv;
    ReachableInv(cfg, s);
    InvChain(cfg, s, i);
    assert WorkerOk(cfg, s, i);
    var ch, r := ChanOf(s.ws[i], d), s.ws[i].up.unpacked;
    RoundExists(cfg, i, r);
    var x := FrameNo(cfg, i, d, r);
    ShapeIsFrame(x, cfg.init[i]);
    if ch.upc.UCopy? {
      assert ch.rbuf[..|x|] == x;
      PrefixReadsLikeFrame(ch.rbuf, x);
    }
  }

  /**
   One credit per connection, always. The message on its way to the client, or in its slot, is MR
   before the first frame and READY ever after.
   */
  lemma OneCredit(cfg: Config, s: State, i: nat, d: Dir)
    requires ValidConfig(cfg) && Reachable(cfg, s) && i < |cfg.init|
    ensures |s.ws| == |cfg.init|
    ensures var ch := ChanOf(s.ws[i], d);
            && CreditInv(ch.hs) && Credits(ch.hs) == 1
            && (ch.hs.msgIn != NoMsg ==> ch.hs.msgIn == if ch.posted == 0 then Mr else Ready)
            && (ch.hs.ctl ==> ch.hs.outMsg == if ch.posted == 0 then Mr else Ready)
  {
    ReachableInv(cfg, s);
    assert WorkerOk(cfg, s, i);
    hide DataInv, MemInv, BlkInv, RingInv;
  }

  /** The length that a sending thread staged is what the server records for the frame. */
  lemma LengthIsDelivered(cfg: Config, s: State, i: nat, d: Dir)
    requires ValidConfig(cfg) && Reachable(cfg, s) && i < |cfg.init|
    ensures |s.ws| == |cfg.init|
    ensures var ch := ChanOf(s.ws[i], d);
            && (ch.hs.wire.Landed? ==>
                  ch.posted > 0 && ch.hs.wire.size == |FrameNo(cfg, i, d, ch.posted - 1)|)
            && (ch.hs.vpc.VPost? || ch.hs.vpc.VCount? || ch.hs.vpc.VSpin? ==>
                  ch.posted > 0 && ch.hs.vpc.size == |FrameNo(cfg, i, d, ch.posted - 1)|)
            && (ch.rcvd > 0 ==> ch.rlen == |FrameNo(cfg, i, d, ch.rcvd - 1)|)
            && (Unpacking(ch) ==> ch.rlen == |FrameNo(cfg, i, d, ch.unpacked)|)
  {
    hide CreditInv, MemInv, BlkInv;
    ReachableInv(cfg, s);
    InvChain(cfg, s, i);
    assert WorkerOk(cfg, s, i);
    var ch, r := ChanOf(s.ws[i], d), s.ws[i].up.unpacked;
    assert SizesInv(ch, |FrameNo(cfg, i, d, r)|);
    FrameLength(cfg, i, d, r);
    FrameLength(cfg, i, d, if ch.posted > 0 then ch.posted - 1 else 0);
    FrameLength(cfg, i, d, if ch.rcvd > 0 then ch.rcvd - 1 else 0);
    FrameLength(cfg, i, d, ch.unpacked);
  }

  lemma FrameLength(cfg: Config, i: nat, d: Dir, k: nat)
    requires ValidConfig(cfg) && i < |cfg.init|
    ensures |FrameNo(cfg, i, d, k)| == |cfg.init[i]|
  {
    RoundExists(cfg, i, k);
  }

  // ---------- Delivery ----------

  ghost predicate LogOk(cfg: Config, i: nat, d: Dir, ch: Chan)
    requires i < |cfg.init|
  {
    && |ch.sent| == Flagged(ch) && |ch.got| == ch.unpacked
    && (forall k | 0 <= k < |ch.sent| :: ch.sent[k] == FrameNo(cfg, i, d, k))
    && (forall k | 0 <= k < |ch.got| :: ch.got[k] == FrameNo(cfg, i, d, k))
  }

  ghost predicate LogsOk(cfg: Config, s: State) {
    && |s.ws| == |cfg.init|
    && forall i, d {:trigger ChanOf(s.ws[i], d)} | 0 <= i < |s.ws| :: LogOk(cfg, i, d, ChanOf(s.ws[i], d))
  }

  /** What is flagged is the next frame to send; what has been unpacked is the next frame to receive. */
  lemma EndsHoldFrame(cfg: Config, s: State, i: nat, d: Dir)
    requires ValidConfig(cfg) && Inv(cfg, s) && i < |s.ws|
    ensures var ch := ChanOf(s.ws[i], d);
            && (ch.spc.SFlag? ==> Staged(ch) == FrameNo(cfg, i, d, Flagged(ch)))
            && (ch.upc.UCount? ==>
                  (if d.Down? then s.ws[i].mem else s.blocks[i]) == FrameNo(cfg, i, d, ch.unpacked))
  {
    hide CreditInv;
    InvChain(cfg, s, i);
    var ch, r := ChanOf(s.ws[i], d), s.ws[i].up.unpacked;
    assert WorkerOk(cfg, s, i);
    assert ch.spc.SFlag? ==> Flagged(ch) == r;
    assert ch.upc.UCount? ==> ch.unpacked == r;
    if ch.spc.SFlag? {
      var x := FrameNo(cfg, i, d, r);
      assert Staged(ch) == x[..|x|] == x;
    }
  }

  /** How a step changes the histories: only raising the flag and counting a frame do. */
  lemma LogEffect(cfg: Config, s: State, a: Actor, i: nat, d: Dir)
    requires Enabled(s, a) && i < |s.ws| && i < |s.blocks|
    ensures |Step(cfg, s, a).ws| == |s.ws|
    ensures var ch, ch' := ChanOf(s.ws[i], d), ChanOf(Step(cfg, s, a).ws[i], d);
            && (if a == On(i, d, Sender) && ch.spc.SFlag?
                then ch'.sent == ch.sent + [Staged(ch)] && Flagged(ch') == Flagged(ch) + 1
                else ch'.sent == ch.sent && Flagged(ch') == Flagged(ch))
            && (if a == On(i, d, Receiver) && ch.upc.UCount?
                then ch'.got == ch.got + [if d.Down? then s.ws[i].mem else s.blocks[i]]
                     && ch'.unpacked == ch.unpacked + 1
                else ch'.got == ch.got && ch'.unpacked == ch.unpacked)
  {
    hide DoSender, DoReceiver, LinkPart, UnpackFresh, UnpackInPlace, CanLinkPart, CanSender, CanReceiver;
    if a.On? {
      var w, ch := s.ws[a.i], ChanOf(s.ws[a.i], a.d);
      match a.part {
        case Sender =>
          if a.d.Down? {
            SenderEffect(ch, May(s, a.i, a.d), true, s.blocks[a.i]);
          } else {
            SenderEffect(ch, May(s, a.i, a.d), false, w.mem);
          }
        case Receiver =>
          ReceiverEffect(ch, if a.d.Down? then w.mem else s.blocks[a.i]);
        case _ =>
          LinkPartEffect(ch, a.part);
      }
    }
  }

  lemma SenderEffect(ch: Chan, may: bool, stamps: bool, src: seq<Cell>)
    requires CanSender(ch, may)
    ensures var ch' := DoSender(ch, may, stamps, src).0;
            && ch'.got == ch.got && ch'.unpacked == ch.unpacked
            && (if ch.spc.SFlag? then ch'.sent == ch.sent + [Staged(ch)] && Flagged(ch') == Flagged(ch) + 1
                else ch'.sent == ch.sent && Flagged(ch') == Flagged(ch))
  {
  }

  lemma ReceiverEffect(ch: Chan, dst: seq<Cell>)
    requires CanReceiver(ch)
    ensures var ch' := DoReceiver(ch, dst);
            && ch'.sent == ch.sent && Flagged(ch') == Flagged(ch)
            && (if ch.upc.UCount? then ch'.got == ch.got + [dst] && ch'.unpacked == ch.unpacked + 1
                else ch'.got == ch.got && ch'.unpacked == ch.unpacked)
  {
  }

  /** What the handlers and the wire leave alone; only the client handler posts and clears. */
  lemma LinkPartEffect(ch: Chan, part: Part)
    requires CanLinkPart(ch, part)
    ensures var ch' := LinkPart(ch, part);
            && ch'.sent == ch.sent && Flagged(ch') == Flagged(ch)
            && ch'.got == ch.got && ch'.unpacked == ch.unpacked
            && (!part.Client? ==>
                  ch'.posted == ch.posted && ch'.hs.cpc == ch.hs.cpc && ch'.canSend == ch.canSend)
  {
    match part
    case Client => ClientEffect(ch);
    case Ctl => hide DoClient, DoServer, CanClient, CanServer;
    case Write => hide DoClient, DoServer, CanClient, CanServer;
    case Server => ServerEffect(ch);
  }

  lemma ClientEffect(ch: Chan)
    requires CanClient(ch)
    ensures var ch' := DoClient(ch);
            && ch'.sent == ch.sent && Flagged(ch') == Flagged(ch)
            && ch'.got == ch.got && ch'.unpacked == ch.unpacked
  {
  }

  lemma ServerEffect(ch: Chan)
    requires CanServer(ch)
    ensures var ch' := DoServer(ch);
            && ch'.sent == ch.sent && Flagged(ch') == Flagged(ch)
            && ch'.got == ch.got && ch'.unpacked == ch.unpacked
            && ch'.posted == ch.posted && ch'.hs.cpc == ch.hs.cpc && ch'.canSend == ch.canSend
  {
  }

  lemma StepKeepsLog(cfg: Config, s: State, a: Actor, i: nat, d: Dir)
    requires ValidConfig(cfg) && Inv(cfg, s) && Enabled(s, a) && i < |s.ws|
    requires LogOk(cfg, i, d, ChanOf(s.ws[i], d))
    ensures |Step(cfg, s, a).ws| == |s.ws|
    ensures LogOk(cfg, i, d, ChanOf(Step(cfg, s, a).ws[i], d))
  {
    hide LinkInv, MemInv, BlkInv, RingInv, Step, WorkerOk;
    LogEffect(cfg, s, a, i, d);
    EndsHoldFrame(cfg, s, i, d);
  }

  lemma {:induction false} RunKeepsLogs(cfg: Config, s: State, acts: seq<Actor>, s': State)
    requires ValidConfig(cfg) && Inv(cfg, s) && LogsOk(cfg, s) && Runs(cfg, s, acts, s')
    ensures LogsOk(cfg, s')
    decreases |acts|
  {
    if acts != [] {
      var t := Step(cfg, s, acts[0]);
      StepKeeps(cfg, s, acts[0]);
      forall i, d {:trigger ChanOf(t.ws[i], d)} | 0 <= i < |t.ws| ensures LogOk(cfg, i, d, ChanOf(t.ws[i], d)) {
        assert LogOk(cfg, i, d, ChanOf(s.ws[i], d));
        StepKeepsLog(cfg, s, acts[0], i, d);
      }
      RunKeepsLogs(cfg, t, acts[1..], s');
    }
  }

  /**
   Exactly once, in order: what either side has unpacked is a prefix of what the other has flagged,
   at most one frame behind, and frame k is the pair after the k-th (k + 1-st) compute step.
   */
  lemma ExactlyOnceInOrder(cfg: Config, s: State, i: nat, d: Dir)
    requires ValidConfig(cfg) && Reachable(cfg, s) && i < |cfg.init|
    ensures |s.ws| == |cfg.init|
    ensures var ch := ChanOf(s.ws[i], d);
            && |ch.got| == ch.unpacked && |ch.sent| == Flagged(ch)
            && ch.got <= ch.sent && |ch.sent| <= |ch.got| + 1
            && forall k | 0 <= k < |ch.sent| :: ch.sent[k] == FrameNo(cfg, i, d, k)
  {
    var s0, acts :| Init(cfg, s0) && Runs(cfg, s0, acts, s);
    InitHolds(cfg, s0);
    RunKeepsLogs(cfg, s0, acts, s);
    RunKeeps(cfg, s0, acts, s);
    InvChain(cfg, s, i);
    assert LogOk(cfg, i, d, ChanOf(s.ws[i], d));
  }

  /** The k-th frame of either direction carries `data_age` k in both headers. */
  lemma AgesCountFrames(cfg: Config, s: State, i: nat, d: Dir, k: nat)
    requires ValidConfig(cfg) && Reachable(cfg, s) && i < |cfg.init|
    requires |s.ws| == |cfg.init| && k < |ChanOf(s.ws[i], d).got|
    ensures var x := ChanOf(s.ws[i], d).got[k];
            IntAt(x, AGE) == k && IntAt(x, QBase(x) + AGE) == k
  {
    ExactlyOnceInOrder(cfg, s, i, d);
    BodyKeepsShape(cfg, i, k);
    StampKeepsShape(Body(cfg, i, k), cfg.init[i], k);
    FoldKeepsShape(cfg, i, k, cfg.samples, DownFrame(cfg, i, k));
    ShapeIsFrame(FrameNo(cfg, i, d, k), cfg.init[i]);
    assert FrameNo(cfg, i, d, k) == ChanOf(s.ws[i], d).sent[k];
  }

  /** Every frame that arrives describes the block that partitioning made: same ids, extents, sizes. */
  lemma ShapesAreConserved(cfg: Config, s: State, i: nat, d: Dir, k: nat)
    requires ValidConfig(cfg) && Reachable(cfg, s) && i < |cfg.init|
    requires |s.ws| == |cfg.init| && k < |ChanOf(s.ws[i], d).got|
    ensures SameShape(ChanOf(s.ws[i], d).got[k], cfg.init[i])
  {
    ExactlyOnceInOrder(cfg, s, i, d);
    BodyKeepsShape(cfg, i, k);
    BodyKeepsShape(cfg, i, k + 1);
    StampKeepsShape(Body(cfg, i, k), cfg.init[i], k);
    assert FrameNo(cfg, i, d, k) == ChanOf(s.ws[i], d).sent[k];
  }
}
