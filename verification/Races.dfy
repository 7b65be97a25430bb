/**
 Two races that the counters allow. The worker's `to_send_age` can lag behind `completed_iter`, and
 READY can be sent for a frame that nobody has read. Both need two rounds, and two are enough: one
 thread, and the PS between its last two updates, are held back while everyone else moves on.
 */
module Races {
  import opened Cells
  import opened Link
  import opened Rounds
  import opened Invariant
  import opened Progress
  import opened Liveness

  /** `completed_iter <= to_send_age` fails. */
  predicate Lags(w: Worker) {
    w.completed > w.up.staged
  }

  /** READY is on its way although the frame it answers has not been read. */
  predicate EarlyReady(ch: Chan) {
    ch.unpacked < ch.rcvd && ch.hs.ctl && ch.hs.outMsg == Ready
  }

  datatype Race = SlowCount(i: nat) | SlowReader(i: nat, d: Dir)

  predicate Happened(r: Race, s: State) {
    && r.i < |s.ws|
    && match r
       case SlowCount(i) => Lags(s.ws[i])
       case SlowReader(i, d) => EarlyReady(ChanOf(s.ws[i], d))
  }

  /** The slow thread is the one held back: before its first count, or before its second frame. */
  predicate HeldBack(r: Race, s: State, a: Actor) {
    && r.i < |s.ws|
    && match r
       case SlowCount(i) => a == On(i, Up, Sender) && s.ws[i].up.spc.SCount?
       case SlowReader(i, d) =>
         a == On(i, d, Receiver) && ChanOf(s.ws[i], d).upc.UIdle? && ChanOf(s.ws[i], d).unpacked == 1
  }

  predicate Waits(r: Race, s: State) {
    && r.i < |s.ws| && s.iterT <= 1
    && match r
       case SlowCount(i) => s.ws[i].up.staged == 0
       case SlowReader(i, d) => ReaderWaits(ChanOf(s.ws[i], d))
  }

  predicate ReaderWaits(ch: Chan) {
    && ch.unpacked <= 1
    && (ch.unpacked == 1 ==> ch.upc.UIdle? || ch.upc.UFlag?)
    && (ch.unpacked == 1 < ch.rcvd ==> ch.hs.vpc.VSpin? || ch.hs.vpc.VReady? || ch.hs.vpc.VSend?)
  }

  /** When the PS waits between its last two updates, it is worker i's frame that is missing. */
  lemma SlowWorkerIsLast(cfg: Config, r: Race, s: State)
    requires ValidConfig(cfg) && Inv(cfg, s) && Waits(r, s) && s.completed == 1
    ensures s.ws[r.i].up.unpacked == 1
  {
    InvChain(cfg, s, r.i);
    assert s.ws[r.i].up.unpacked <= 1;
  }

  /** The server handler answers without waiting for the reader: `can_recv` has stayed true. */
  lemma ServerAnswers(cfg: Config, r: Race, s: State, a: Actor)
    requires ValidConfig(cfg) && Inv(cfg, s) && Waits(r, s) && Enabled(s, a) && HeldBack(r, s, a) && r.SlowReader?
    ensures Enabled(s, On(r.i, r.d, Server))
  {
    assert WorkerOk(cfg, s, r.i);
    hide MemInv, BlkInv, DataInv, RingInv, CreditInv;
  }

  /** While they wait and the race has not happened, somebody else can make a step that loses no flag. */
  lemma RaceMove(cfg: Config, r: Race, s: State) returns (a: Actor)
    requires ValidConfig(cfg) && Inv(cfg, s) && NoneLost(s) && Waits(r, s) && !Happened(r, s)
    ensures Productive(s, a) && !Overtakes(s, a) && !HeldBack(r, s, a)
    ensures a.Merger? && s.mpc.Bump? ==> s.iterT == 0
  {
    hide WorkerOk, EarlyReady, ReaderWaits, CanSender, CanReceiver, CanLinkPart, Lost;
    if i, d :| 0 <= i < |s.ws| && ChanOf(s.ws[i], d).hs.cpc.CClear? {
      a := On(i, d, Client);
      ClearIsEnabled(s, i, d);
    } else {
      if s.mpc.Bump? && s.completed == 1 {
        SlowWorkerIsLast(cfg, r, s);
        assert !Lost(ChanOf(s.ws[r.i], Down)) && !Lost(ChanOf(s.ws[r.i], Up));
        a := LaggardMoves(cfg, s, r.i);
      } else {
        a := SomeoneMoves(cfg, s);
      }
      assert forall i, d {:trigger ChanOf(s.ws[i], d)} | 0 <= i < |s.ws| :: !ChanOf(s.ws[i], d).hs.cpc.CClear?;
      if HeldBack(r, s, a) {
        ServerAnswers(cfg, r, s, a);
        a := On(r.i, r.d, Server);
      }
    }
  }

  lemma ClearIsEnabled(s: State, i: nat, d: Dir)
    requires i < |s.ws| == |s.blocks| && ChanOf(s.ws[i], d).hs.cpc.CClear?
    ensures Enabled(s, On(i, d, Client))
  {
  }

  // ---------- The slow thread goes on waiting ----------

  lemma SenderKeepsWait(ch: Chan, may: bool, stamps: bool, src: seq<Cell>)
    requires CanSender(ch, may)
    ensures ReaderWaits(ch) ==> ReaderWaits(DoSender(ch, may, stamps, src).0)
    ensures !ch.spc.SCount? ==> DoSender(ch, may, stamps, src).0.staged == ch.staged
  {
  }

  lemma ReceiverKeepsWait(ch: Chan, dst: seq<Cell>)
    requires CanReceiver(ch) && CountInv(ch) && Flagged(ch) <= ch.unpacked + 1
    ensures ReaderWaits(ch) && !(ch.upc.UIdle? && ch.unpacked == 1) ==> ReaderWaits(DoReceiver(ch, dst))
    ensures DoReceiver(ch, dst).staged == ch.staged
  {
  }

  lemma LinkPartKeepsWait(ch: Chan, part: Part)
    requires CanLinkPart(ch, part) && CreditInv(ch.hs) && CountInv(ch)
    ensures ReaderWaits(ch) ==> ReaderWaits(LinkPart(ch, part)) || EarlyReady(LinkPart(ch, part))
    ensures LinkPart(ch, part).staged == ch.staged
  {
    match part
    case Client =>
    case Ctl =>
    case Write =>
    case Server =>
  }

  lemma OtherActorKeepsChan(cfg: Config, s: State, a: Actor, i: nat, d: Dir)
    requires Enabled(s, a) && i < |s.ws| && !(a.On? && a.i == i && a.d == d)
    ensures |Step(cfg, s, a).ws| == |s.ws| && ChanOf(Step(cfg, s, a).ws[i], d) == ChanOf(s.ws[i], d)
  {
    hide LinkPart, CanLinkPart, DoSender, DoReceiver, CanSender, CanReceiver, UnpackFresh, UnpackInPlace, ComputeStep;
    ComputeKeepsChans(cfg, i, s.ws[i]);
  }

  lemma ChanWaits(cfg: Config, s: State, a: Actor, i: nat, d: Dir)
    requires ValidConfig(cfg) && Inv(cfg, s) && Enabled(s, a) && i < |s.ws|
    ensures |Step(cfg, s, a).ws| == |s.ws|
    ensures var ch, ch' := ChanOf(s.ws[i], d), ChanOf(Step(cfg, s, a).ws[i], d);
            && (ReaderWaits(ch) && !(a == On(i, d, Receiver) && ch.upc.UIdle? && ch.unpacked == 1) ==>
                  ReaderWaits(ch') || EarlyReady(ch'))
            && (!(a == On(i, d, Sender) && ch.spc.SCount?) ==> ch'.staged == ch.staged)
  {
    if a.On? && a.i == i && a.d == d {
      InvChain(cfg, s, i);
      assert CreditInv(ChanOf(s.ws[i], d).hs) && CountInv(ChanOf(s.ws[i], d)) by { assert WorkerOk(cfg, s, i); }
      hide Inv, LinkPart, CanLinkPart, DoSender, DoReceiver, CanSender, CanReceiver, UnpackFresh, UnpackInPlace,
        ReaderWaits, EarlyReady, CreditInv, CountInv;
      var w, ch := s.ws[i], ChanOf(s.ws[i], d);
      match a.part {
        case Sender => SenderKeepsWait(ch, May(s, i, d), d.Down?, if d.Down? then s.blocks[i] else w.mem);
        case Receiver => ReceiverKeepsWait(ch, if d.Down? then w.mem else s.blocks[i]);
        case _ => LinkPartKeepsWait(ch, a.part);
      }
    } else {
      OtherActorKeepsChan(cfg, s, a, i, d);
      hide Step, ReaderWaits, Enabled, Inv;
    }
  }

  lemma StillWaits(cfg: Config, r: Race, s: State, a: Actor)
    requires ValidConfig(cfg) && Inv(cfg, s) && Waits(r, s) && Enabled(s, a) && !HeldBack(r, s, a)
    requires a.Merger? && s.mpc.Bump? ==> s.iterT == 0
    ensures Waits(r, Step(cfg, s, a)) || Happened(r, Step(cfg, s, a))
  {
    ChanWaits(cfg, s, a, r.i, if r.SlowCount? then Up else r.d);
    assert Step(cfg, s, a).iterT <= 1;
    hide Step, ReaderWaits, EarlyReady, Inv;
  }

  lemma {:induction false} ReachRace(cfg: Config, r: Race, s: State) returns (acts: seq<Actor>, s': State)
    requires ValidConfig(cfg) && Inv(cfg, s) && NoneLost(s) && 2 <= cfg.rounds
    requires Waits(r, s) || Happened(r, s)
    ensures Runs(cfg, s, acts, s') && Happened(r, s')
    decreases Bound(cfg) - Pos(cfg, s)
  {
    if Happened(r, s) {
      acts, s' := [], s;
    } else {
      var a := RaceMove(cfg, r, s);
      PosBounded(cfg, s);
      StepAdvances(cfg, s, a);
      StepKeeps(cfg, s, a);
      StepKeepsUnlost(cfg, s, a);
      StillWaits(cfg, r, s, a);
      IterTBounded(cfg, s, a);
      var t := Step(cfg, s, a);
      hide WorkerOk, Pos, NoneLost, Step, Happened;
      PosBounded(cfg, t);
      var rest;
      rest, s' := ReachRace(cfg, r, t);
      acts := [a] + rest;
      assert acts[1..] == rest;
    }
  }

  lemma RaceIsReachable(cfg: Config, r: Race) returns (s: State)
    requires ValidConfig(cfg) && 2 <= cfg.rounds && r.i < |cfg.init|
    ensures Reachable(cfg, s) && Happened(r, s)
  {
    var s0 := Start(cfg);
    InitHolds(cfg, s0);
    assert InitChan(cfg, s0.ws[r.i].down) && InitChan(cfg, s0.ws[r.i].up);
    var acts;
    acts, s := ReachRace(cfg, r, s0);
  }

  // ---------- The first READY does wait for the reader ----------

  predicate Unanswered(ch: Chan) {
    && (ch.hs.wire.Landed? ==> ch.hs.wire.size > 0)
    && (ch.hs.vpc.VPost? || ch.hs.vpc.VCount? || ch.hs.vpc.VSpin? ==> ch.hs.vpc.size > 0)
    && (ch.upc.UFlag? ==> ch.unpacked > 0)
    && (ch.unpacked == 0 ==> !ch.canRecv && ch.hs.outMsg != Ready && !ch.hs.vpc.VReady? && !ch.hs.vpc.VSend?)
  }

  lemma SenderKeepsUnanswered(ch: Chan, may: bool, stamps: bool, src: seq<Cell>)
    requires CanSender(ch, may) && Unanswered(ch)
    ensures Unanswered(DoSender(ch, may, stamps, src).0)
  {
  }

  lemma ReceiverKeepsUnanswered(ch: Chan, dst: seq<Cell>)
    requires CanReceiver(ch) && Unanswered(ch)
    ensures Unanswered(DoReceiver(ch, dst))
  {
  }

  lemma LinkPartKeepsUnanswered(ch: Chan, part: Part)
    requires CanLinkPart(ch, part) && Unanswered(ch) && (ch.hs.wire.Moving? ==> ch.hs.wire.len > 0)
    ensures Unanswered(LinkPart(ch, part))
  {
    if part.Server? {
      ServerKeepsUnanswered(ch);
      hide DoServer, CanServer, Unanswered;
    }
  }

  lemma ServerKeepsUnanswered(ch: Chan)
    requires CanServer(ch) && Unanswered(ch)
    ensures Unanswered(DoServer(ch))
  {
  }

  lemma StepKeepsUnanswered(cfg: Config, s: State, a: Actor, i: nat, d: Dir)
    requires ValidConfig(cfg) && Inv(cfg, s) && Enabled(s, a) && i < |s.ws| && Unanswered(ChanOf(s.ws[i], d))
    ensures |Step(cfg, s, a).ws| == |s.ws| && Unanswered(ChanOf(Step(cfg, s, a).ws[i], d))
  {
    if a.On? && a.i == i && a.d == d {
      FramesAreNotEmpty(cfg, s, i, d);
      hide Inv, LinkPart, CanLinkPart, DoSender, DoReceiver, CanSender, CanReceiver, UnpackFresh, UnpackInPlace,
        Unanswered;
      var w, ch := s.ws[i], ChanOf(s.ws[i], d);
      match a.part {
        case Sender => SenderKeepsUnanswered(ch, May(s, i, d), d.Down?, if d.Down? then s.blocks[i] else w.mem);
        case Receiver => ReceiverKeepsUnanswered(ch, if d.Down? then w.mem else s.blocks[i]);
        case _ => LinkPartKeepsUnanswered(ch, a.part);
      }
    } else {
      OtherActorKeepsChan(cfg, s, a, i, d);
    }
  }

  lemma FramesAreNotEmpty(cfg: Config, s: State, i: nat, d: Dir)
    requires ValidConfig(cfg) && Inv(cfg, s) && i < |s.ws|
    ensures ChanOf(s.ws[i], d).hs.wire.Moving? ==> ChanOf(s.ws[i], d).hs.wire.len > 0
  {
    assert WorkerOk(cfg, s, i);
    RoundExists(cfg, i, s.ws[i].up.unpacked);
    hide CreditInv, CountInv, MemInv, BlkInv;
  }

  lemma {:induction false} RunKeepsUnanswered(cfg: Config, s: State, acts: seq<Actor>, s': State, i: nat, d: Dir)
    requires ValidConfig(cfg) && Inv(cfg, s) && i < |s.ws| && Unanswered(ChanOf(s.ws[i], d)) && Runs(cfg, s, acts, s')
    ensures i < |s'.ws| && Unanswered(ChanOf(s'.ws[i], d))
    decreases |acts|
  {
    if acts != [] {
      StepKeeps(cfg, s, acts[0]);
      StepKeepsUnanswered(cfg, s, acts[0], i, d);
      RunKeepsUnanswered(cfg, Step(cfg, s, acts[0]), acts[1..], s', i, d);
    }
  }

  /** No READY is sent before the first frame has been read. */
  lemma FirstReadyWaits(cfg: Config, s: State, i: nat, d: Dir)
    requires ValidConfig(cfg) && Reachable(cfg, s) && i < |cfg.init|
    ensures |s.ws| == |cfg.init|
    ensures EarlyReady(ChanOf(s.ws[i], d)) ==> ChanOf(s.ws[i], d).unpacked > 0
  {
    ReachableInv(cfg, s);
    var s0, acts :| Init(cfg, s0) && Runs(cfg, s0, acts, s);
    InitHolds(cfg, s0);
    assert InitChan(cfg, s0.ws[i].down) && InitChan(cfg, s0.ws[i].up);
    RunKeepsUnanswered(cfg, s0, acts, s, i, d);
  }

  // ---------- One round is not enough ----------

  /** The PS has not begun to send the results of a round that will not be merged. */
  lemma {:induction false} CompletedBelowRounds(cfg: Config, s: State, acts: seq<Actor>, s': State)
    requires s.completed < cfg.rounds && Runs(cfg, s, acts, s')
    ensures s'.completed < cfg.rounds
    decreases |acts|
  {
    if acts != [] {
      CompletedBelowRounds(cfg, Step(cfg, s, acts[0]), acts[1..], s');
    }
  }

  /**
   `completed_iter <= to_send_age` holds of worker i in every reachable state if and only if there
   are fewer than two rounds.
   */
  lemma CounterLagsIffTwoRounds(cfg: Config, i: nat)
    requires ValidConfig(cfg) && i < |cfg.init|
    ensures (exists s :: Reachable(cfg, s) && i < |s.ws| && Lags(s.ws[i])) <==> 2 <= cfg.rounds
  {
    if 2 <= cfg.rounds {
      var s := RaceIsReachable(cfg, SlowCount(i));
    } else {
      forall s | Reachable(cfg, s) && i < |s.ws| ensures !Lags(s.ws[i]) {
        ReachableInv(cfg, s);
        InvChain(cfg, s, i);
        var s0, acts :| Init(cfg, s0) && Runs(cfg, s0, acts, s);
        CompletedBelowRounds(cfg, s0, acts, s);
      }
    }
  }

  /**
   READY gives no back-pressure: it is sent for frames nobody has read yet in some reachable state if
   and only if there are two rounds or more.
   */
  lemma ReadyComesEarlyIffTwoRounds(cfg: Config, i: nat, d: Dir)
    requires ValidConfig(cfg) && i < |cfg.init|
    ensures (exists s :: Reachable(cfg, s) && i < |s.ws| && EarlyReady(ChanOf(s.ws[i], d))) <==> 2 <= cfg.rounds
  {
    if 2 <= cfg.rounds {
      var s := RaceIsReachable(cfg, SlowReader(i, d));
    } else {
      forall s | Reachable(cfg, s) && i < |s.ws| ensures !EarlyReady(ChanOf(s.ws[i], d)) {
        ReachableInv(cfg, s);
        InvChain(cfg, s, i);
        FirstReadyWaits(cfg, s, i, d);
        var s0, acts :| Init(cfg, s0) && Runs(cfg, s0, acts, s);
        CompletedBelowRounds(cfg, s0, acts, s);
      }
    }
  }
}
