/**
 The parameter server and its workers as one step relation. Each worker has a connection down
 (PS to worker) and one up; every thread of every process is an actor that makes one access to
 shared memory per step, and any actor may go next.
 */
module Rounds {
  import opened Cells
  import opened Link

  /**
   `init[i]` is the frame image of P block i and Q block i after partitioning, `cap` the size of the
   registered buffers, and `micro(i, t, s, x)` what sample s of worker i's t-th compute step does to
   the pair x it holds.
   */
  datatype Config = Config(
    rounds: nat, cap: nat, samples: nat,
    init: seq<seq<Cell>>,
    micro: (nat, nat, nat, seq<Cell>) -> seq<Cell>)

  ghost predicate ValidConfig(cfg: Config) {
    && cfg.init != []
    && (forall i | 0 <= i < |cfg.init| ::
          && IsFrame(cfg.init[i]) && |cfg.init[i]| <= cfg.cap
          && IntAt(cfg.init[i], ID) == i && IntAt(cfg.init[i], QBase(cfg.init[i]) + ID) == i)
    && (forall i: nat, t: nat, s: nat, x: seq<Cell> {:trigger cfg.micro(i, t, s, x)} |
          i < |cfg.init| && SameShape(x, cfg.init[i]) ::
          SameShape(cfg.micro(i, t, s, x), cfg.init[i]) && SameAges(cfg.micro(i, t, s, x), x))
  }

  // ---------- What the rounds compute, without any concurrency ----------

  /** The pair after the first s samples of compute step t. */
  function Fold(cfg: Config, i: nat, t: nat, s: nat, x: seq<Cell>): seq<Cell> {
    if s == 0 then x else cfg.micro(i, t, s - 1, Fold(cfg, i, t, s - 1, x))
  }

  /** One compute step on a pair that carries age t. */
  function Computed(cfg: Config, i: nat, t: nat, x: seq<Cell>): seq<Cell> {
    Fold(cfg, i, t, cfg.samples, Stamp(x, t))
  }

  /** Pair i after k compute steps. */
  function Body(cfg: Config, i: nat, k: nat): seq<Cell>
    requires i < |cfg.init|
  {
    if k == 0 then cfg.init[i] else Computed(cfg, i, k - 1, Body(cfg, i, k - 1))
  }

  /** Frame number k on the way to worker i. */
  function DownFrame(cfg: Config, i: nat, k: nat): seq<Cell>
    requires i < |cfg.init|
  {
    Stamp(Body(cfg, i, k), k)
  }

  // ---------- State ----------

  datatype CpuPc = PIdle | PRun(s: nat) | PBump

  /** `mem` is the worker's Pblock and Qblock, laid out like a frame. */
  datatype Worker = Worker(
    down: Chan, up: Chan, mem: seq<Cell>,
    iterT: nat, completed: int, pc: CpuPc)

  /** The PS main thread: reading `recved_iter[j]` inside CanMerge, or between its two updates. */
  datatype MainPc = Scan(j: nat) | Bump

  datatype State = State(
    iterT: nat, completed: int, mpc: MainPc,
    blocks: seq<seq<Cell>>, ws: seq<Worker>)

  datatype Dir = Down | Up
  datatype Part = Sender | Client | Ctl | Write | Server | Receiver
  datatype Actor = Merger | Compute(i: nat) | On(i: nat, d: Dir, part: Part)

  function ChanOf(w: Worker, d: Dir): Chan {
    if d.Down? then w.down else w.up
  }

  function SetChan(w: Worker, d: Dir, ch: Chan): Worker {
    if d.Down? then w.(down := ch) else w.(up := ch)
  }

  // ---------- The handlers and the wire: they touch their connection only ----------

  predicate CanLinkPart(ch: Chan, part: Part) {
    match part
    case Client => CanClient(ch)
    case Ctl => CanCtl(ch)
    case Write => CanWire(ch)
    case Server => CanServer(ch)
    case _ => false
  }

  function LinkPart(ch: Chan, part: Part): Chan
    requires CanLinkPart(ch, part)
  {
    match part
    case Client => DoClient(ch)
    case Ctl => DoCtl(ch)
    case Write => DoWire(ch)
    case Server => DoServer(ch)
  }

  /** The two guards: `<=` on the PS (ps.cpp:192), `==` on the worker (worker.cu:176). */
  predicate May(s: State, i: nat, d: Dir)
    requires i < |s.ws|
  {
    if d.Down? then s.ws[i].down.staged <= s.completed else s.ws[i].up.staged == s.ws[i].completed
  }

  predicate Enabled(s: State, a: Actor) {
    match a
    case Merger => true
    case Compute(i) =>
      i < |s.ws| && (s.ws[i].pc.PIdle? ==> s.ws[i].iterT < s.ws[i].down.unpacked)
    case On(i, d, part) =>
      && i < |s.ws| && i < |s.blocks|
      && var ch := ChanOf(s.ws[i], d);
         match part
         case Sender => CanSender(ch, May(s, i, d))
         case Receiver => CanReceiver(ch)
         case _ => CanLinkPart(ch, part)
  }

  /** CanMerge one element at a time, then `completed_iter = iter_t` and `iter_t++` (ps.cpp:142-201). */
  function MergeStep(s: State): State {
    match s.mpc
    case Scan(j) =>
      if j < |s.ws| then
        if s.iterT > s.ws[j].up.unpacked then s.(mpc := Scan(0)) else s.(mpc := Scan(j + 1))
      else
        s.(completed := s.iterT, mpc := Bump)
    case Bump => s.(iterT := s.iterT + 1, mpc := Scan(0))
  }

  /** worker.cu:128-159, one sample of FakeSubMF at a time. */
  function ComputeStep(cfg: Config, i: nat, w: Worker): Worker {
    match w.pc
    case PIdle => w.(pc := PRun(0))
    case PRun(s) =>
      if s < cfg.samples then
        w.(mem := cfg.micro(i, w.iterT, s, w.mem), pc := PRun(s + 1))
      else
        w.(completed := w.iterT, pc := PBump)
    case PBump => w.(iterT := w.iterT + 1, pc := PIdle)
  }

  /** worker.cu:360-382: the worker unpacks into freshly allocated memory. */
  function UnpackFresh(ch: Chan, mem: seq<Cell>): seq<Cell> {
    if ch.upc.UIdle? then [] else if Copies(ch) then mem + [Get(ch.rbuf, ch.upc.k)] else mem
  }

  /** ps.cpp:356-384: the PS unpacks in place, into the block the header in the buffer names. */
  function UnpackInPlace(ch: Chan, blocks: seq<seq<Cell>>): seq<seq<Cell>> {
    if Copies(ch) then
      var o := OwnerOf(ch.rbuf, ch.upc.k);
      if 0 <= o < |blocks| then blocks[o := Put(blocks[o], ch.upc.k, Get(ch.rbuf, ch.upc.k))] else blocks
    else blocks
  }

  function Step(cfg: Config, s: State, a: Actor): State
    requires Enabled(s, a)
  {
    match a
    case Merger => MergeStep(s)
    case Compute(i) => s.(ws := s.ws[i := ComputeStep(cfg, i, s.ws[i])])
    case On(i, d, part) =>
      var w := s.ws[i];
      var ch := ChanOf(w, d);
      match part {
        case Sender =>
          if d.Down? then
            var r := DoSender(ch, May(s, i, d), true, s.blocks[i]);
            s.(blocks := s.blocks[i := r.1], ws := s.ws[i := w.(down := r.0)])
          else
            s.(ws := s.ws[i := w.(up := DoSender(ch, May(s, i, d), false, w.mem).0)])
        case Receiver =>
          if d.Down? then
            s.(ws := s.ws[i := w.(down := DoReceiver(ch, w.mem), mem := UnpackFresh(ch, w.mem))])
          else
            s.(blocks := UnpackInPlace(ch, s.blocks),
               ws := s.ws[i := w.(up := DoReceiver(ch, s.blocks[i]))])
        case _ =>
          s.(ws := s.ws[i := SetChan(w, d, LinkPart(ch, part))])
      }
  }

  ghost predicate InitChan(cfg: Config, ch: Chan) {
    && ch.staged == 0 && ch.spc == SIdle && |ch.sbuf| == cfg.cap && !ch.canSend
    && ch.hs == Handshake(CRecv, 1, NoMsg, false, Quiet, false, VMr, 1, NoMsg)
    && ch.posted == 0 && |ch.rbuf| == cfg.cap && ch.rcvd == 0 && !ch.canRecv
    && ch.upc == UIdle && ch.unpacked == 0
    && ch.sent == [] && ch.got == []
  }

  /** Both connections of every worker are established and each server owes its MSG_MR. */
  ghost predicate Init(cfg: Config, s: State) {
    && s.iterT == 0 && s.completed == -1 && s.mpc == Scan(0)
    && s.blocks == cfg.init && |s.ws| == |cfg.init|
    && forall i | 0 <= i < |s.ws| ::
         && InitChan(cfg, s.ws[i].down) && InitChan(cfg, s.ws[i].up)
         && s.ws[i].iterT == 0 && s.ws[i].completed == -1 && s.ws[i].pc == PIdle
  }

  /** The PS process exits as soon as `iter_t` reaches the last round (ps.cpp:163-166). */
  predicate Exited(cfg: Config, s: State) {
    s.iterT >= cfg.rounds
  }

  /** Run the actors of `acts` in this order; every one must be enabled when its turn comes. */
  ghost predicate Runs(cfg: Config, s: State, acts: seq<Actor>, s': State)
    decreases |acts|
  {
    if acts == [] then s' == s
    else !Exited(cfg, s) && Enabled(s, acts[0]) && Runs(cfg, Step(cfg, s, acts[0]), acts[1..], s')
  }

  ghost predicate Reachable(cfg: Config, s: State) {
    exists s0, acts :: Init(cfg, s0) && Runs(cfg, s0, acts, s)
  }
}
