/**
 The inductive invariant of the round protocol. Everything it says about worker i is relative to
 the round r that the PS has unpacked last from that worker: `body` is the pair after r compute
 steps, `dn` the frame that carries it down, `bk` the frame that comes back.
 */
module Invariant {
  import opened Cells
  import opened Link
  import opened Rounds

  // ---------- The pairs of round r ----------

  ghost predicate RoundOk(cfg: Config, i: nat, r: nat, body: seq<Cell>, dn: seq<Cell>, bk: seq<Cell>)
    requires ValidConfig(cfg) && i < |cfg.init|
  {
    var y := cfg.init[i];
    && SameShape(body, y) && dn == Stamp(body, r) && SameShape(dn, y)
    && bk == Fold(cfg, i, r, cfg.samples, dn) && SameShape(bk, y)
  }

  lemma {:induction false} FoldKeepsShape(cfg: Config, i: nat, t: nat, s: nat, x: seq<Cell>)
    requires ValidConfig(cfg) && i < |cfg.init| && SameShape(x, cfg.init[i])
    ensures SameShape(Fold(cfg, i, t, s, x), cfg.init[i])
    ensures SameAges(Fold(cfg, i, t, s, x), x)
  {
    if s > 0 {
      FoldKeepsShape(cfg, i, t, s - 1, x);
      var prev := Fold(cfg, i, t, s - 1, x);
      assert SameShape(cfg.micro(i, t, s - 1, prev), cfg.init[i]);
    }
  }

  /** Ids, start indices, heights and element counts are those of the partition in every round. */
  lemma {:induction false} BodyKeepsShape(cfg: Config, i: nat, k: nat)
    requires ValidConfig(cfg) && i < |cfg.init|
    ensures SameShape(Body(cfg, i, k), cfg.init[i])
  {
    if k > 0 {
      BodyKeepsShape(cfg, i, k - 1);
      StampKeepsShape(Body(cfg, i, k - 1), cfg.init[i], k - 1);
      FoldKeepsShape(cfg, i, k - 1, cfg.samples, DownFrame(cfg, i, k - 1));
    }
  }

  lemma RoundExists(cfg: Config, i: nat, r: nat)
    requires ValidConfig(cfg) && i < |cfg.init|
    ensures RoundOk(cfg, i, r, Body(cfg, i, r), DownFrame(cfg, i, r), Body(cfg, i, r + 1))
  {
    BodyKeepsShape(cfg, i, r);
    BodyKeepsShape(cfg, i, r + 1);
    StampKeepsShape(Body(cfg, i, r), cfg.init[i], r);
  }

  // ---------- One worker ----------

  /** Compute steps finished by the worker. */
  function Done(w: Worker): int { w.completed + 1 }

  predicate Packing(ch: Chan) {
    !ch.spc.SIdle? && !ch.spc.SCount?
  }

  /**
   The counters around the ring, each at most the one before it; the last is at most one behind
   the first. The links between `Flagged`, `posted`, `rcvd` and `unpacked` are in `CountInv`.
   */
  ghost predicate RingInv(completed: int, w: Worker) {
    && completed <= w.up.unpacked
    && Flagged(w.down) <= completed + 1
    && 0 <= Done(w) <= w.down.unpacked
    && Flagged(w.up) <= Done(w)
    && (Packing(w.down) ==> w.down.staged <= completed)
    && (Packing(w.up) ==> w.up.staged < Done(w))
    && w.iterT == (if w.pc.PBump? then Done(w) - 1 else Done(w))
    && (w.pc.PRun? ==> Done(w) < w.down.unpacked)
  }

  /** The worker's memory: being unpacked, computed on, or waiting to be packed. */
  ghost predicate MemInv(cfg: Config, i: nat, w: Worker, dn: seq<Cell>, bk: seq<Cell>) {
    && (w.down.upc.UCopy? ==> Starts(w.mem, dn, w.down.upc.k) && |w.mem| == w.down.upc.k)
    && (w.down.upc.UCount? ==> w.mem == dn)
    && (0 <= Done(w) < w.down.unpacked ==>
          if w.pc.PRun? then w.pc.s <= cfg.samples && w.mem == Fold(cfg, i, Done(w), w.pc.s, dn)
          else w.mem == dn)
    && (Flagged(w.up) < Done(w) ==> w.mem == bk)
  }

  /** The PS block pair: body until stamped, then the frame sent down, then the one that came back. */
  ghost predicate BlkInv(w: Worker, blk: seq<Cell>, body: seq<Cell>, dn: seq<Cell>, bk: seq<Cell>) {
    if w.up.upc.UCopy? then
      |blk| == |bk| == |dn| && w.up.upc.k <= |bk| && blk == bk[..w.up.upc.k] + dn[w.up.upc.k..]
    else if w.up.upc.UCount? then
      blk == bk
    else if w.down.spc.SPack? || w.down.spc.SFlag? || Flagged(w.down) > w.up.unpacked then
      blk == dn
    else if w.down.spc.SStampQ? then
      blk == Put(body, AGE, Int(w.down.staged))
    else
      blk == body
  }

  ghost predicate WorkerInv(cfg: Config, i: nat, completed: int, w: Worker, blk: seq<Cell>,
                            body: seq<Cell>, dn: seq<Cell>, bk: seq<Cell>)
  {
    && |w.down.sbuf| == |w.down.rbuf| == |w.up.sbuf| == |w.up.rbuf| == cfg.cap
    && RingInv(completed, w)
    && LinkInv(w.down, dn)
    && LinkInv(w.up, bk)
    && MemInv(cfg, i, w, dn, bk)
    && BlkInv(w, blk, body, dn, bk)
  }

  /**
   The chain of counters of one worker. At most one link of it is strict, so at any time a single
   thread of the whole ring holds the round.
   */
  lemma Chain(completed: int, w: Worker)
    requires RingInv(completed, w) && CountInv(w.down) && CountInv(w.up)
    ensures w.up.unpacked <= w.up.rcvd <= w.up.posted <= Flagged(w.up) <= Done(w)
    ensures Done(w) <= w.down.unpacked <= w.down.rcvd <= w.down.posted <= Flagged(w.down) <= completed + 1
    ensures completed + 1 <= w.up.unpacked + 1
  {
  }

  // ---------- Steps of the threads of one worker ----------

  lemma LinkPartKeeps(cfg: Config, i: nat, completed: int, w: Worker, blk: seq<Cell>,
                      body: seq<Cell>, dn: seq<Cell>, bk: seq<Cell>, d: Dir, ch': Chan)
    requires WorkerInv(cfg, i, completed, w, blk, body, dn, bk)
    requires LinkInv(ch', if d.Down? then dn else bk) && ThreadsSame(ChanOf(w, d), ch')
    ensures WorkerInv(cfg, i, completed, SetChan(w, d, ch'), blk, body, dn, bk)
  {
  }

  lemma ComputeKeeps(cfg: Config, i: nat, completed: int, w: Worker, blk: seq<Cell>,
                     body: seq<Cell>, dn: seq<Cell>, bk: seq<Cell>)
    requires WorkerInv(cfg, i, completed, w, blk, body, dn, bk)
    requires w.pc.PIdle? ==> w.iterT < w.down.unpacked
    requires bk == Fold(cfg, i, w.up.unpacked, cfg.samples, dn)
    ensures WorkerInv(cfg, i, completed, ComputeStep(cfg, i, w), blk, body, dn, bk)
  {
    Chain(completed, w);
  }

  lemma DownSenderKeeps(cfg: Config, i: nat, completed: int, w: Worker, blk: seq<Cell>,
                        body: seq<Cell>, dn: seq<Cell>, bk: seq<Cell>, may: bool)
    requires WorkerInv(cfg, i, completed, w, blk, body, dn, bk)
    requires CanSender(w.down, may) && (may ==> w.down.staged <= completed)
    requires IsFrame(body) && IsFrame(dn) && dn == Stamp(body, w.up.unpacked)
    ensures var r := DoSender(w.down, may, true, blk);
            WorkerInv(cfg, i, completed, w.(down := r.0), r.1, body, dn, bk)
  {
    Chain(completed, w);
    DownSenderKeepsBlock(completed, w, blk, body, dn, bk, may);
    SenderKeeps(w.down, may, true, blk, dn, DoSender(w.down, may, true, blk).0);
  }

  lemma DownSenderKeepsBlock(completed: int, w: Worker, blk: seq<Cell>,
                             body: seq<Cell>, dn: seq<Cell>, bk: seq<Cell>, may: bool)
    requires RingInv(completed, w) && CountInv(w.down) && CountInv(w.up) && BlkInv(w, blk, body, dn, bk)
    requires CanSender(w.down, may) && (may ==> w.down.staged <= completed)
    requires IsFrame(body) && dn == Stamp(body, w.up.unpacked)
    ensures var r := DoSender(w.down, may, true, blk);
            BlkInv(w.(down := r.0), r.1, body, dn, bk) && RingInv(completed, w.(down := r.0))
    ensures w.down.spc.SPack? || w.down.spc.SFlag? ==> blk == dn
  {
    Chain(completed, w);
  }

  lemma UpSenderKeeps(cfg: Config, i: nat, completed: int, w: Worker, blk: seq<Cell>,
                      body: seq<Cell>, dn: seq<Cell>, bk: seq<Cell>, may: bool)
    requires WorkerInv(cfg, i, completed, w, blk, body, dn, bk)
    requires CanSender(w.up, may) && (may ==> w.up.staged == w.completed)
    requires IsFrame(bk)
    ensures WorkerInv(cfg, i, completed, w.(up := DoSender(w.up, may, false, w.mem).0), blk, body, dn, bk)
  {
    Chain(completed, w);
    SenderKeeps(w.up, may, false, w.mem, bk, DoSender(w.up, may, false, w.mem).0);
  }

  lemma DownReceiverKeeps(cfg: Config, i: nat, completed: int, w: Worker, blk: seq<Cell>,
                          body: seq<Cell>, dn: seq<Cell>, bk: seq<Cell>)
    requires WorkerInv(cfg, i, completed, w, blk, body, dn, bk)
    requires CanReceiver(w.down) && IsFrame(dn)
    ensures WorkerInv(cfg, i, completed,
                      w.(down := DoReceiver(w.down, w.mem), mem := UnpackFresh(w.down, w.mem)), blk, body, dn, bk)
  {
    Chain(completed, w);
    ReceiverKeeps(w.down, dn, w.mem, DoReceiver(w.down, w.mem));
    if w.down.upc.UCopy? {
      assert w.down.rbuf[..|dn|] == dn;
      PrefixReadsLikeFrame(w.down.rbuf, dn);
    }
  }

  /** A cell unpacked by the PS goes to the block of the worker it came from. */
  lemma InPlaceHitsOwnBlock(cfg: Config, i: nat, ch: Chan, x: seq<Cell>, blocks: seq<seq<Cell>>)
    requires ValidConfig(cfg) && i < |cfg.init| == |blocks| && SameShape(x, cfg.init[i])
    requires LinkInv(ch, x) && ch.upc.UCopy? && Flagged(ch) <= ch.unpacked + 1
    ensures Copies(ch) <==> ch.upc.k < |x|
    ensures UnpackInPlace(ch, blocks) ==
            if ch.upc.k < |x| then blocks[i := Put(blocks[i], ch.upc.k, x[ch.upc.k])] else blocks
  {
    assert ch.rbuf[..|x|] == x;
    ShapeIsFrame(x, cfg.init[i]);
    PrefixReadsLikeFrame(ch.rbuf, x);
  }

  lemma UpReceiverKeeps(cfg: Config, i: nat, completed: int, w: Worker, blocks: seq<seq<Cell>>,
                        body: seq<Cell>, dn: seq<Cell>, bk: seq<Cell>)
    requires ValidConfig(cfg) && i < |cfg.init| == |blocks| && SameShape(bk, cfg.init[i])
    requires WorkerInv(cfg, i, completed, w, blocks[i], body, dn, bk)
    requires CanReceiver(w.up) && !w.up.upc.UCount?
    requires |dn| == |bk|
    ensures var blocks' := UnpackInPlace(w.up, blocks);
            && |blocks'| == |blocks|
            && (forall j | 0 <= j < |blocks| && j != i :: blocks'[j] == blocks[j])
            && WorkerInv(cfg, i, completed, w.(up := DoReceiver(w.up, blocks[i])), blocks'[i], body, dn, bk)
  {
    Chain(completed, w);
    var up' := DoReceiver(w.up, blocks[i]);
    ReceiverKeeps(w.up, bk, blocks[i], up');
    if w.up.upc.UCopy? {
      InPlaceHitsOwnBlock(cfg, i, w.up, bk, blocks);
    }
    UpReceiverKeepsBlock(completed, w, blocks[i], body, dn, bk);
    hide LinkInv, BlkInv, FrameLen, OwnerOf, SameShape, ValidConfig;
  }

  lemma UpReceiverKeepsBlock(completed: int, w: Worker, blk: seq<Cell>, body: seq<Cell>, dn: seq<Cell>, bk: seq<Cell>)
    requires RingInv(completed, w) && CountInv(w.down) && CountInv(w.up) && BlkInv(w, blk, body, dn, bk)
    requires CanReceiver(w.up) && !w.up.upc.UCount? && |dn| == |bk|
    requires w.up.upc.UCopy? ==> (Copies(w.up) <==> w.up.upc.k < |bk|)
    ensures var blk' := if Copies(w.up) then Put(blk, w.up.upc.k, bk[w.up.upc.k]) else blk;
            BlkInv(w.(up := DoReceiver(w.up, blk)), blk', body, dn, bk)
  {
    Chain(completed, w);
  }

  /** The frame is counted: the next round begins with everything quiet. */
  lemma UpCountKeeps(cfg: Config, i: nat, completed: int, w: Worker, blk: seq<Cell>,
                     body: seq<Cell>, dn: seq<Cell>, bk: seq<Cell>, dn2: seq<Cell>, bk2: seq<Cell>)
    requires WorkerInv(cfg, i, completed, w, blk, body, dn, bk)
    requires w.up.upc.UCount?
    requires |dn2| == |bk2| == |dn| == |bk|
    ensures WorkerInv(cfg, i, completed, w.(up := DoReceiver(w.up, blk)), blk, bk, dn2, bk2)
    ensures blk == bk
  {
    Chain(completed, w);
    ReceiverKeeps(w.up, bk, blk, DoReceiver(w.up, blk));
  }

  // ---------- The whole system ----------

  ghost predicate WorkerOk(cfg: Config, s: State, i: nat)
    requires ValidConfig(cfg) && i < |cfg.init| == |s.blocks| == |s.ws|
  {
    var r := s.ws[i].up.unpacked;
    WorkerInv(cfg, i, s.completed, s.ws[i], s.blocks[i],
              Body(cfg, i, r), DownFrame(cfg, i, r), Body(cfg, i, r + 1))
  }

  ghost predicate MainInv(s: State) {
    match s.mpc
    case Bump => s.completed == s.iterT
    case Scan(j) =>
      && s.completed == s.iterT - 1 && j <= |s.ws|
      && forall i | 0 <= i < j :: s.iterT <= s.ws[i].up.unpacked
  }

  ghost predicate Inv(cfg: Config, s: State)
    requires ValidConfig(cfg)
  {
    && |s.blocks| == |s.ws| == |cfg.init|
    && MainInv(s)
    && forall i | 0 <= i < |s.ws| :: WorkerOk(cfg, s, i)
  }

  lemma InitHolds(cfg: Config, s: State)
    requires ValidConfig(cfg) && Init(cfg, s)
    ensures Inv(cfg, s)
  {
    forall i | 0 <= i < |s.ws| ensures WorkerOk(cfg, s, i) {
      RoundExists(cfg, i, 0);
    }
  }

  lemma MergeKeeps(cfg: Config, s: State)
    requires ValidConfig(cfg) && Inv(cfg, s)
    ensures Inv(cfg, MergeStep(s))
  {
    forall i | 0 <= i < |s.ws| ensures WorkerOk(cfg, MergeStep(s), i) {
      assert WorkerOk(cfg, s, i);
    }
  }

  /** The chain of counters, for every worker of a state that satisfies the invariant. */
  lemma InvChain(cfg: Config, s: State, i: nat)
    requires ValidConfig(cfg) && Inv(cfg, s) && i < |s.ws|
    ensures var w := s.ws[i];
            && w.up.unpacked <= w.up.rcvd <= w.up.posted <= Flagged(w.up) <= Done(w)
            && Done(w) <= w.down.unpacked <= w.down.rcvd <= w.down.posted <= Flagged(w.down) <= s.completed + 1
            && s.completed + 1 <= w.up.unpacked + 1
    ensures s.iterT - 1 <= s.completed <= s.iterT
  {
    assert WorkerOk(cfg, s, i);
    Chain(s.completed, s.ws[i]);
  }

  /** A step that changes one worker and its block only. */
  ghost predicate OnlyWorker(cfg: Config, s: State, s': State, i: nat)
    requires ValidConfig(cfg) && i < |s.ws| == |s.blocks| == |cfg.init|
  {
    && |s'.blocks| == |s.blocks| && |s'.ws| == |s.ws|
    && s'.iterT == s.iterT && s'.completed == s.completed && s'.mpc == s.mpc
    && (forall j | 0 <= j < |s.ws| && j != i :: s'.ws[j] == s.ws[j] && s'.blocks[j] == s.blocks[j])
    && s.ws[i].up.unpacked <= s'.ws[i].up.unpacked
    && WorkerOk(cfg, s', i)
  }

  lemma OnlyWorkerKeeps(cfg: Config, s: State, s': State, i: nat)
    requires ValidConfig(cfg) && Inv(cfg, s) && i < |s.ws| && OnlyWorker(cfg, s, s', i)
    ensures Inv(cfg, s')
  {
    forall j | 0 <= j < |s.ws| ensures WorkerOk(cfg, s', j) {
      assert WorkerOk(cfg, s, j);
    }
  }

  lemma StepKeeps(cfg: Config, s: State, a: Actor)
    requires ValidConfig(cfg) && Inv(cfg, s) && Enabled(s, a)
    ensures Inv(cfg, Step(cfg, s, a))
    ensures !a.Merger? ==> OnlyWorker(cfg, s, Step(cfg, s, a), a.i)
  {
    match a
    case Merger => MergeKeeps(cfg, s);
    case Compute(i) =>
      ComputeActorKeeps(cfg, s, i);
      OnlyWorkerKeeps(cfg, s, Step(cfg, s, a), i);
    case On(i, d, part) =>
      match part {
        case Sender => SenderActorKeeps(cfg, s, i, d);
        case Receiver => ReceiverActorKeeps(cfg, s, i, d);
        case _ => LinkActorKeeps(cfg, s, i, d, part);
      }
      OnlyWorkerKeeps(cfg, s, Step(cfg, s, a), i);
  }

  lemma ComputeActorKeeps(cfg: Config, s: State, i: nat)
    requires ValidConfig(cfg) && Inv(cfg, s) && Enabled(s, Compute(i))
    ensures OnlyWorker(cfg, s, Step(cfg, s, Compute(i)), i)
  {
    hide LinkInv, MemInv, BlkInv;
    var w, r := s.ws[i], s.ws[i].up.unpacked;
    assert WorkerOk(cfg, s, i);
    RoundExists(cfg, i, r);
    ComputeKeeps(cfg, i, s.completed, w, s.blocks[i], Body(cfg, i, r), DownFrame(cfg, i, r), Body(cfg, i, r + 1));
  }

  lemma LinkActorKeeps(cfg: Config, s: State, i: nat, d: Dir, part: Part)
    requires ValidConfig(cfg) && Inv(cfg, s) && Enabled(s, On(i, d, part)) && !part.Sender? && !part.Receiver?
    ensures OnlyWorker(cfg, s, Step(cfg, s, On(i, d, part)), i)
  {
    hide LinkInv, MemInv, BlkInv, LinkPart, RingInv;
    var w, r, ch := s.ws[i], s.ws[i].up.unpacked, ChanOf(s.ws[i], d);
    var body, dn, bk := Body(cfg, i, r), DownFrame(cfg, i, r), Body(cfg, i, r + 1);
    assert WorkerOk(cfg, s, i);
    InvChain(cfg, s, i);
    var ch' := LinkPart(ch, part);
    LinkPartHolds(ch, part, if d.Down? then dn else bk);
    LinkPartKeeps(cfg, i, s.completed, w, s.blocks[i], body, dn, bk, d, ch');
  }

  lemma LinkPartHolds(ch: Chan, part: Part, x: seq<Cell>)
    requires LinkInv(ch, x) && CanLinkPart(ch, part) && Flagged(ch) <= ch.unpacked + 1
    ensures LinkInv(LinkPart(ch, part), x) && ThreadsSame(ch, LinkPart(ch, part))
  {
    match part
    case Client => ClientKeeps(ch, x);
    case Ctl => CtlKeeps(ch, x);
    case Write => WireKeeps(ch, x);
    case Server => ServerKeeps(ch, x);
  }

  lemma SenderActorKeeps(cfg: Config, s: State, i: nat, d: Dir)
    requires ValidConfig(cfg) && Inv(cfg, s) && Enabled(s, On(i, d, Sender))
    ensures OnlyWorker(cfg, s, Step(cfg, s, On(i, d, Sender)), i)
  {
    hide LinkInv, MemInv, BlkInv;
    var w, r := s.ws[i], s.ws[i].up.unpacked;
    var body, dn, bk := Body(cfg, i, r), DownFrame(cfg, i, r), Body(cfg, i, r + 1);
    assert WorkerOk(cfg, s, i);
    RoundExists(cfg, i, r);
    ShapeIsFrame(body, cfg.init[i]);
    ShapeIsFrame(dn, cfg.init[i]);
    ShapeIsFrame(bk, cfg.init[i]);
    if d.Down? {
      DownSenderKeeps(cfg, i, s.completed, w, s.blocks[i], body, dn, bk, May(s, i, d));
    } else {
      UpSenderKeeps(cfg, i, s.completed, w, s.blocks[i], body, dn, bk, May(s, i, d));
    }
  }

  lemma ReceiverActorKeeps(cfg: Config, s: State, i: nat, d: Dir)
    requires ValidConfig(cfg) && Inv(cfg, s) && Enabled(s, On(i, d, Receiver))
    ensures OnlyWorker(cfg, s, Step(cfg, s, On(i, d, Receiver)), i)
  {
    hide LinkInv, MemInv, BlkInv;
    var w, r := s.ws[i], s.ws[i].up.unpacked;
    var body, dn, bk := Body(cfg, i, r), DownFrame(cfg, i, r), Body(cfg, i, r + 1);
    assert WorkerOk(cfg, s, i);
    RoundExists(cfg, i, r);
    ShapeIsFrame(dn, cfg.init[i]);
    if d.Down? {
      DownReceiverKeeps(cfg, i, s.completed, w, s.blocks[i], body, dn, bk);
    } else if w.up.upc.UCount? {
      RoundExists(cfg, i, r + 1);
      UpCountKeeps(cfg, i, s.completed, w, s.blocks[i], body, dn, bk,
                   DownFrame(cfg, i, r + 1), Body(cfg, i, r + 2));
    } else {
      UpReceiverKeeps(cfg, i, s.completed, w, s.blocks, body, dn, bk);
    }
  }

  lemma {:induction false} RunKeeps(cfg: Config, s: State, acts: seq<Actor>, s': State)
    requires ValidConfig(cfg) && Inv(cfg, s) && Runs(cfg, s, acts, s')
    ensures Inv(cfg, s')
    decreases |acts|
  {
    if acts != [] {
      StepKeeps(cfg, s, acts[0]);
      RunKeeps(cfg, Step(cfg, s, acts[0]), acts[1..], s');
    }
  }

  /** The invariant holds in every reachable state of every interleaving. */
  lemma ReachableInv(cfg: Config, s: State)
    requires ValidConfig(cfg) && Reachable(cfg, s)
    ensures Inv(cfg, s)
  {
    var s0, acts :| Init(cfg, s0) && Runs(cfg, s0, acts, s);
    InitHolds(cfg, s0);
    RunKeeps(cfg, s0, acts, s);
  }
}
