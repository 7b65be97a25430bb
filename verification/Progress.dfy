/**
 Progress of the round protocol. The client handler posts the write and clears `can_send`
 afterwards, in two accesses; if the next frame is flagged in between, the flag is lost and the run
 can never finish. This module shows that this is the only way to get stuck.
 */
module Progress {
  import opened Cells
  import opened Link
  import opened Rounds
  import opened Invariant

  /** A frame is staged but its flag is down, or about to be taken down. */
  predicate Lost(ch: Chan) {
    Flagged(ch) > ch.posted && (ch.hs.cpc.CClear? || !ch.canSend)
  }

  ghost predicate NoneLost(s: State) {
    forall i, d {:trigger ChanOf(s.ws[i], d)} | 0 <= i < |s.ws| :: !Lost(ChanOf(s.ws[i], d))
  }

  /** Some flag is lost and the last merge has not happened yet. */
  ghost predicate Doomed(cfg: Config, s: State) {
    s.completed + 1 < cfg.rounds && !NoneLost(s)
  }

  ghost predicate AllReady(s: State) {
    forall i | 0 <= i < |s.ws| :: s.iterT <= s.ws[i].up.unpacked
  }

  /** An enabled step other than CanMerge polling while some worker's frame is still missing. */
  ghost predicate Productive(s: State, a: Actor) {
    Enabled(s, a) && (a.Merger? && s.mpc.Scan? ==> AllReady(s))
  }

  /** Raising `can_send` while the handler still has to clear it for the previous frame. */
  predicate Overtakes(s: State, a: Actor) {
    && a.On? && a.part.Sender? && a.i < |s.ws|
    && var ch := ChanOf(s.ws[a.i], a.d);
       ch.spc.SFlag? && ch.hs.cpc.CClear?
  }

  predicate ClearPending(s: State, a: Actor) {
    a.On? && a.part.Client? && a.i < |s.ws| && ChanOf(s.ws[a.i], a.d).hs.cpc.CClear?
  }

  // ---------- Some thread can always move ----------

  /** A frame that is flagged but not yet unpacked always has someone to move it on. */
  lemma LinkMoves(ch: Chan) returns (part: Part)
    requires CreditInv(ch.hs) && CountInv(ch)
    requires ch.unpacked < Flagged(ch) && !Lost(ch)
    ensures if part.Receiver? then CanReceiver(ch) else CanLinkPart(ch, part)
    ensures part.Client? ==> !ch.hs.cpc.CClear?
  {
    var hs := ch.hs;
    if ch.unpacked < ch.rcvd || ch.upc.UFlag? {
      part := Receiver;
    } else if ch.rcvd < ch.posted {
      part := if hs.wire.Moving? then Write else Server;
    } else if WithServer(hs.vpc) {
      part := Server;
    } else if hs.ctl && hs.cpc.CRecv? {
      part := Ctl;
    } else {
      part := Client;
    }
  }

  /** The worker whose frame is missing has a thread that can move. */
  lemma LaggardMoves(cfg: Config, s: State, i: nat) returns (a: Actor)
    requires ValidConfig(cfg) && Inv(cfg, s) && i < |s.ws|
    requires s.ws[i].up.unpacked == s.completed
    requires !Lost(s.ws[i].down) && !Lost(s.ws[i].up)
    ensures Enabled(s, a) && !a.Merger? && a.i == i && !ClearPending(s, a)
    ensures a == On(i, Up, Sender) ==> Flagged(s.ws[i].up) < Done(s.ws[i])
  {
    InvChain(cfg, s, i);
    assert WorkerOk(cfg, s, i);
    hide MemInv, BlkInv, DataInv;
    var w := s.ws[i];
    if Flagged(w.down) <= s.completed {
      a := On(i, Down, Sender);
    } else if w.down.unpacked < Flagged(w.down) {
      var part := LinkMoves(w.down);
      a := On(i, Down, part);
    } else if Done(w) < w.down.unpacked {
      a := Compute(i);
    } else if Flagged(w.up) < Done(w) {
      a := On(i, Up, Sender);
    } else {
      var part := LinkMoves(w.up);
      a := On(i, Up, part);
    }
  }

  lemma SomeoneMoves(cfg: Config, s: State) returns (a: Actor)
    requires ValidConfig(cfg) && Inv(cfg, s) && (s.mpc.Scan? ==> NoneLost(s))
    ensures Productive(s, a) && !ClearPending(s, a)
    ensures a.On? && a.d.Up? && a.part.Sender? ==> a.i < |s.ws| && Flagged(s.ws[a.i].up) < Done(s.ws[a.i])
  {
    if s.mpc.Bump? || AllReady(s) {
      a := Merger;
    } else {
      var i :| 0 <= i < |s.ws| && !(s.iterT <= s.ws[i].up.unpacked);
      InvChain(cfg, s, i);
      assert !Lost(ChanOf(s.ws[i], Down)) && !Lost(ChanOf(s.ws[i], Up));
      a := LaggardMoves(cfg, s, i);
    }
  }

  // ---------- A measure ----------

  function Laps(k: nat, len: nat): nat { k * len }

  lemma LapsNext(k: nat, len: nat)
    ensures Laps(k + 1, len) == Laps(k, len) + len
  {
  }

  lemma {:induction false} LapsMonotone(k: nat, n: nat, len: nat)
    requires k <= n
    ensures Laps(k, len) <= Laps(n, len)
  {
    if k < n {
      LapsMonotone(k, n - 1, len);
      LapsNext(n - 1, len);
    }
  }

  function SenderPos(cfg: Config, ch: Chan): int {
    Laps(ch.staged, cfg.cap + 8) +
    match ch.spc
    case SIdle => 0
    case SStampP => 1
    case SStampQ => 2
    case SPack(k) => 3 + k
    case SFlag => cfg.cap + 4
    case SCount => cfg.cap + 5
  }

  function ReceiverPos(cfg: Config, ch: Chan): int {
    Laps(ch.unpacked, cfg.cap + 8) +
    match ch.upc
    case UFlag => -1
    case UIdle => 0
    case UCopy(k) => 1 + k
    case UCount => cfg.cap + 2
  }

  /** Where the credit is on its way from one post to the next, and how far the handler has to go. */
  function CreditPos(cfg: Config, hs: Handshake): int {
    (if hs.wire.Moving? then hs.wire.k - (cfg.cap + 20)
     else if hs.wire.Landed? then -19
     else match hs.vpc
          case VMr => 0
          case VMrSend => 1
          case VPost(_) => -18
          case VCount(_) => -17
          case VSpin(_) => -16
          case VReady => -15
          case VSend => -14
          case VIdle => if hs.ctl then 10 else if hs.msgIn != NoMsg then 11 else 12)
    + (match hs.cpc case CClear => 0 case CRepost => 1 case _ => 2)
  }

  function LinkPos(cfg: Config, ch: Chan): int {
    Laps(ch.posted, cfg.cap + 40) + CreditPos(cfg, ch.hs)
  }

  function CpuPos(cfg: Config, iterT: nat, pc: CpuPc): int {
    Laps(iterT, cfg.samples + 4) +
    match pc
    case PIdle => 0
    case PRun(s) => 1 + s
    case PBump => cfg.samples + 2
  }

  function ChanPos(cfg: Config, ch: Chan): int {
    SenderPos(cfg, ch) + LinkPos(cfg, ch) + ReceiverPos(cfg, ch)
  }

  function WorkerPos(cfg: Config, w: Worker): int {
    ChanPos(cfg, w.down) + ChanPos(cfg, w.up) + CpuPos(cfg, w.iterT, w.pc)
  }

  function WorkersPos(cfg: Config, ws: seq<Worker>): int {
    if ws == [] then 0 else WorkersPos(cfg, ws[..|ws| - 1]) + WorkerPos(cfg, ws[|ws| - 1])
  }

  /** Polling does not count: CanMerge's index matters only once it can no longer fail. */
  ghost function MainPos(s: State): int {
    Laps(s.iterT, |s.ws| + 3) +
    match s.mpc
    case Scan(j) => if AllReady(s) then j else 0
    case Bump => |s.ws| + 1
  }

  ghost function Pos(cfg: Config, s: State): int {
    MainPos(s) + WorkersPos(cfg, s.ws)
  }

  lemma {:induction false} WorkersPosUpdate(cfg: Config, ws: seq<Worker>, i: nat, w: Worker)
    requires i < |ws|
    ensures WorkersPos(cfg, ws[i := w]) == WorkersPos(cfg, ws) - WorkerPos(cfg, ws[i]) + WorkerPos(cfg, w)
  {
    hide WorkerPos;
    var last := |ws| - 1;
    if i < last {
      WorkersPosUpdate(cfg, ws[..last], i, w);
      assert ws[i := w][..last] == ws[..last][i := w];
    } else {
      assert ws[i := w][..last] == ws[..last];
    }
  }

  lemma SenderAdvances(cfg: Config, ch: Chan, may: bool, stamps: bool, src: seq<Cell>)
    requires CanSender(ch, may) && (ch.spc.SPack? ==> ch.spc.k <= cfg.cap)
    ensures var ch' := DoSender(ch, may, stamps, src).0;
            ChanPos(cfg, ch') > ChanPos(cfg, ch)
  {
    hide CreditPos, FrameLen, Get, Put, Staged;
    LapsNext(ch.staged, cfg.cap + 8);
    hide Laps;
  }

  lemma ReceiverAdvances(cfg: Config, ch: Chan, dst: seq<Cell>)
    requires CanReceiver(ch) && (ch.upc.UCopy? ==> ch.upc.k <= cfg.cap)
    ensures ChanPos(cfg, DoReceiver(ch, dst)) > ChanPos(cfg, ch)
  {
    hide CreditPos, FrameLen;
    LapsNext(ch.unpacked, cfg.cap + 8);
    hide Laps;
  }

  lemma LinkPartAdvances(cfg: Config, ch: Chan, part: Part)
    requires CreditInv(ch.hs) && CanLinkPart(ch, part)
    requires ch.hs.wire.Moving? ==> ch.hs.wire.k <= cfg.cap
    ensures ChanPos(cfg, LinkPart(ch, part)) > ChanPos(cfg, ch)
  {
    assert SenderPos(cfg, LinkPart(ch, part)) == SenderPos(cfg, ch)
        && ReceiverPos(cfg, LinkPart(ch, part)) == ReceiverPos(cfg, ch) by {
      hide Laps, CreditInv;
    }
    match part
    case Client => ClientAdvances(cfg, ch);
    case Server => ServerAdvances(cfg, ch);
    case Ctl => hide Laps, SenderPos, ReceiverPos;
    case Write => hide Laps, SenderPos, ReceiverPos;
  }

  lemma ClientAdvances(cfg: Config, ch: Chan)
    requires CreditInv(ch.hs) && CanClient(ch)
    ensures LinkPos(cfg, DoClient(ch)) > LinkPos(cfg, ch)
  {
    LapsNext(ch.posted, cfg.cap + 40);
    hide Laps;
  }

  lemma ServerAdvances(cfg: Config, ch: Chan)
    requires CreditInv(ch.hs) && CanServer(ch)
    ensures LinkPos(cfg, DoServer(ch)) > LinkPos(cfg, ch)
  {
    hide Laps;
  }

  lemma ComputeAdvances(cfg: Config, i: nat, w: Worker)
    requires w.pc.PRun? ==> w.pc.s <= cfg.samples
    ensures WorkerPos(cfg, ComputeStep(cfg, i, w)) > WorkerPos(cfg, w)
  {
    hide ChanPos;
    LapsNext(w.iterT, cfg.samples + 4);
    hide Laps;
  }

  /** Every cursor stays within the buffer it runs over. */
  lemma Cursors(cfg: Config, s: State, i: nat, d: Dir)
    requires ValidConfig(cfg) && Inv(cfg, s) && i < |s.ws|
    ensures var ch := ChanOf(s.ws[i], d);
            && (ch.spc.SPack? ==> ch.spc.k <= cfg.cap)
            && (ch.hs.wire.Moving? ==> ch.hs.wire.k <= cfg.cap)
            && (ch.upc.UCopy? ==> ch.upc.k <= cfg.cap)
            && CreditInv(ch.hs)
    ensures s.ws[i].pc.PRun? ==> s.ws[i].pc.s <= cfg.samples
  {
    assert WorkerOk(cfg, s, i);
    RoundExists(cfg, i, s.ws[i].up.unpacked);
    hide CreditInv, CountInv;
  }

  lemma ActorAdvances(cfg: Config, s: State, a: Actor)
    requires ValidConfig(cfg) && Inv(cfg, s) && Enabled(s, a) && !a.Merger?
    ensures |Step(cfg, s, a).ws| == |s.ws|
    ensures WorkersPos(cfg, Step(cfg, s, a).ws) > WorkersPos(cfg, s.ws)
  {
    hide Inv, CreditInv, DoSender, DoReceiver, LinkPart, ComputeStep, UnpackFresh, UnpackInPlace,
      ChanPos, CpuPos, WorkersPos, CanSender, CanReceiver, CanLinkPart;
    var i, w, s' := a.i, s.ws[a.i], Step(cfg, s, a);
    WorkersPosUpdate(cfg, s.ws, i, s'.ws[i]);
    match a
    case Compute(_) =>
      Cursors(cfg, s, i, Down);
      ComputeAdvances(cfg, i, w);
    case On(_, d, part) =>
      var ch := ChanOf(w, d);
      Cursors(cfg, s, i, d);
      match part {
        case Sender => SenderAdvances(cfg, ch, May(s, i, d), d.Down?, if d.Down? then s.blocks[i] else w.mem);
        case Receiver => ReceiverAdvances(cfg, ch, if d.Down? then w.mem else s.blocks[i]);
        case _ => LinkPartAdvances(cfg, ch, part);
      }
  }

  /** Every productive step raises the measure; polling leaves it where it is. */
  lemma StepAdvances(cfg: Config, s: State, a: Actor)
    requires ValidConfig(cfg) && Inv(cfg, s) && Enabled(s, a)
    ensures if Productive(s, a) then Pos(cfg, Step(cfg, s, a)) > Pos(cfg, s)
            else Pos(cfg, Step(cfg, s, a)) == Pos(cfg, s)
  {
    hide WorkerOk, WorkersPos, CanSender, CanReceiver, CanLinkPart;
    var s' := Step(cfg, s, a);
    if a.Merger? {
      LapsNext(s.iterT, |s.ws| + 3);
      hide Laps;
      assert s'.ws == s.ws;
    } else {
      ActorAdvances(cfg, s, a);
      StepKeeps(cfg, s, a);
      hide Step, Laps;
    }
  }

  /** No position is ever above this one. */
  ghost function Bound(cfg: Config): nat {
    Laps(cfg.rounds + 1, |cfg.init| + 3) + Laps(|cfg.init|, WorkerBound(cfg))
  }

  ghost function WorkerBound(cfg: Config): nat {
    4 * Laps(cfg.rounds + 2, cfg.cap + 8) + 2 * Laps(cfg.rounds + 2, cfg.cap + 40)
    + Laps(cfg.rounds + 2, cfg.samples + 4)
  }

  /** Position d of lap k, of at most n laps. */
  lemma LapsBound(k: nat, n: nat, len: nat, d: int)
    requires k <= n && d <= len
    ensures Laps(k, len) + d <= Laps(n + 1, len)
  {
    LapsMonotone(k, n, len);
    LapsNext(n, len);
  }

  lemma ChanBounded(cfg: Config, s: State, i: nat, d: Dir)
    requires ValidConfig(cfg) && Inv(cfg, s) && s.iterT <= cfg.rounds && i < |s.ws|
    ensures ChanPos(cfg, ChanOf(s.ws[i], d))
            <= 2 * Laps(cfg.rounds + 2, cfg.cap + 8) + Laps(cfg.rounds + 2, cfg.cap + 40)
  {
    InvChain(cfg, s, i);
    Cursors(cfg, s, i, d);
    hide Inv, CreditInv;
    var ch, n := ChanOf(s.ws[i], d), cfg.rounds + 1;
    LapsBound(ch.staged, n, cfg.cap + 8, SenderPos(cfg, ch) - Laps(ch.staged, cfg.cap + 8));
    LapsBound(ch.unpacked, n, cfg.cap + 8, ReceiverPos(cfg, ch) - Laps(ch.unpacked, cfg.cap + 8));
    LapsBound(ch.posted, n, cfg.cap + 40, CreditPos(cfg, ch.hs));
  }

  lemma WorkerBounded(cfg: Config, s: State, i: nat)
    requires ValidConfig(cfg) && Inv(cfg, s) && s.iterT <= cfg.rounds && i < |s.ws|
    ensures WorkerPos(cfg, s.ws[i]) <= WorkerBound(cfg)
  {
    ChanBounded(cfg, s, i, Down);
    ChanBounded(cfg, s, i, Up);
    InvChain(cfg, s, i);
    Cursors(cfg, s, i, Down);
    var w := s.ws[i];
    assert w.iterT <= cfg.rounds + 1 by { assert WorkerOk(cfg, s, i); }
    hide Inv, CreditInv, ChanPos, Laps;
    LapsBound(w.iterT, cfg.rounds + 1, cfg.samples + 4,
              CpuPos(cfg, w.iterT, w.pc) - Laps(w.iterT, cfg.samples + 4));
  }

  lemma {:induction false} WorkersBounded(cfg: Config, ws: seq<Worker>)
    requires forall i | 0 <= i < |ws| :: WorkerPos(cfg, ws[i]) <= WorkerBound(cfg)
    ensures WorkersPos(cfg, ws) <= Laps(|ws|, WorkerBound(cfg))
  {
    hide WorkerPos, WorkerBound;
    if ws != [] {
      WorkersBounded(cfg, ws[..|ws| - 1]);
      LapsNext(|ws| - 1, WorkerBound(cfg));
    }
  }

  lemma PosBounded(cfg: Config, s: State)
    requires ValidConfig(cfg) && Inv(cfg, s) && s.iterT <= cfg.rounds
    ensures Pos(cfg, s) <= Bound(cfg)
  {
    forall i | 0 <= i < |s.ws| ensures WorkerPos(cfg, s.ws[i]) <= WorkerBound(cfg) {
      WorkerBounded(cfg, s, i);
    }
    WorkersBounded(cfg, s.ws);
    hide WorkerOk, Laps;
    LapsBound(s.iterT, cfg.rounds, |s.ws| + 3, MainPos(s) - Laps(s.iterT, |s.ws| + 3));
  }

  /** How many steps of the run `acts` from s are productive. */
  ghost function ProductiveSteps(cfg: Config, s: State, acts: seq<Actor>): nat
    decreases |acts|
  {
    if acts == [] || !Enabled(s, acts[0]) then 0
    else One(Productive(s, acts[0])) + ProductiveSteps(cfg, Step(cfg, s, acts[0]), acts[1..])
  }

  lemma {:induction false} RunAdvances(cfg: Config, s: State, acts: seq<Actor>, s': State)
    requires ValidConfig(cfg) && Inv(cfg, s) && s.iterT <= cfg.rounds && Runs(cfg, s, acts, s')
    ensures Inv(cfg, s') && s'.iterT <= cfg.rounds
    ensures Pos(cfg, s) + ProductiveSteps(cfg, s, acts) <= Pos(cfg, s')
    decreases |acts|
  {
    if acts != [] {
      hide Inv, Pos;
      StepKeeps(cfg, s, acts[0]);
      StepAdvances(cfg, s, acts[0]);
      RunAdvances(cfg, Step(cfg, s, acts[0]), acts[1..], s');
    }
  }

  /** Whatever the interleaving, a run has no more than so many steps that are not polling. */
  lemma RunsAreBounded(cfg: Config, s0: State, acts: seq<Actor>, s: State)
    requires ValidConfig(cfg) && Init(cfg, s0) && Runs(cfg, s0, acts, s)
    ensures ProductiveSteps(cfg, s0, acts) <= Bound(cfg)
  {
    InitHolds(cfg, s0);
    RunAdvances(cfg, s0, acts, s);
    PosBounded(cfg, s);
    InitPos(cfg, s0);
  }

  lemma InitPos(cfg: Config, s: State)
    requires Init(cfg, s)
    ensures Pos(cfg, s) >= 0
  {
    WorkersNotNegative(cfg, s.ws);
  }

  lemma {:induction false} WorkersNotNegative(cfg: Config, ws: seq<Worker>)
    requires forall i | 0 <= i < |ws| :: WorkerPos(cfg, ws[i]) >= 0
    ensures WorkersPos(cfg, ws) >= 0
  {
    hide WorkerPos;
    if ws != [] {
      WorkersNotNegative(cfg, ws[..|ws| - 1]);
    }
  }
}
