/**
 Which runs finish. A run can reach the last merge exactly when no flag has been lost; a flag is
 lost exactly when a frame is flagged while the previous one's `can_send = false` is still pending,
 and that can happen as soon as there are three rounds.
 */
module Liveness {
  import opened Cells
  import opened Link
  import opened Rounds
  import opened Invariant
  import opened Safety
  import opened Progress

  // ---------- A lost flag is lost for good ----------

  lemma LinkPartKeepsLost(ch: Chan, part: Part)
    requires Lost(ch) && CanLinkPart(ch, part)
    ensures Lost(LinkPart(ch, part))
  {
    LinkPartEffect(ch, part);
    if !part.Client? {
      hide LinkPart, CanLinkPart;
    }
  }

  /** A worker with a lost flag is the one the next merge waits for, and none of its threads helps. */
  lemma LostBlocks(cfg: Config, s: State, i: nat, d: Dir)
    requires ValidConfig(cfg) && Inv(cfg, s) && i < |s.ws| && Lost(ChanOf(s.ws[i], d))
    ensures s.ws[i].up.unpacked == s.completed && !Packing(ChanOf(s.ws[i], d))
    ensures s.mpc.Scan? ==> s.mpc.j <= i
  {
    InvChain(cfg, s, i);
    assert WorkerOk(cfg, s, i);
  }

  lemma StepKeepsLost(cfg: Config, s: State, a: Actor, i: nat, d: Dir)
    requires ValidConfig(cfg) && Inv(cfg, s) && Enabled(s, a) && i < |s.ws| && Lost(ChanOf(s.ws[i], d))
    ensures |Step(cfg, s, a).ws| == |s.ws| && Lost(ChanOf(Step(cfg, s, a).ws[i], d))
    ensures Step(cfg, s, a).completed == s.completed
  {
    LostBlocks(cfg, s, i, d);
    hide Inv, LinkPart, CanLinkPart;
    if a.On? && a.i == i && a.d == d && !a.part.Sender? && !a.part.Receiver? {
      LinkPartKeepsLost(ChanOf(s.ws[i], d), a.part);
    }
  }

  /** From a doomed state no run, however it is scheduled, reaches the last round. */
  lemma {:induction false} DoomedNeverExits(cfg: Config, s: State, acts: seq<Actor>, s': State)
    requires ValidConfig(cfg) && Inv(cfg, s) && Doomed(cfg, s) && Runs(cfg, s, acts, s')
    ensures Doomed(cfg, s') && !Exited(cfg, s')
    decreases |acts|
  {
    if acts == [] {
      InvChain(cfg, s, 0);
    } else {
      var i, d :| 0 <= i < |s.ws| && Lost(ChanOf(s.ws[i], d));
      StepKeepsLost(cfg, s, acts[0], i, d);
      StepKeeps(cfg, s, acts[0]);
      DoomedNeverExits(cfg, Step(cfg, s, acts[0]), acts[1..], s');
    }
  }

  // ---------- How a flag gets lost ----------

  lemma ClientKeepsUnlost(ch: Chan)
    requires CanClient(ch) && !Lost(ch) && Flagged(ch) <= ch.posted + 1
    ensures !Lost(DoClient(ch))
  {
  }

  /** Only a step that flags a frame over a pending clear loses a flag. */
  lemma StepKeepsUnlost(cfg: Config, s: State, a: Actor)
    requires ValidConfig(cfg) && Inv(cfg, s) && NoneLost(s) && Enabled(s, a) && !Overtakes(s, a)
    ensures NoneLost(Step(cfg, s, a))
  {
    var s' := Step(cfg, s, a);
    if !a.Merger? {
      var i := a.i;
      InvChain(cfg, s, i);
      hide Inv, LinkPart, CanLinkPart, DoSender, DoReceiver, CanSender, CanReceiver, UnpackInPlace, Lost, ComputeStep;
      if a.On? {
        var w, ch := s.ws[i], ChanOf(s.ws[i], a.d);
        assert !Lost(ch);
        match a.part {
          case Sender =>
            SenderKeepsUnlost(ch, May(s, i, a.d), true, s.blocks[i]);
            SenderKeepsUnlost(ch, May(s, i, a.d), false, w.mem);
          case Receiver => ReceiverKeepsUnlost(ch, if a.d.Down? then w.mem else s.blocks[i]);
          case _ => LinkPartKeepsUnlost(ch, a.part);
        }
        assert !Lost(ChanOf(s'.ws[i], a.d));
      }
      forall j, d {:trigger ChanOf(s'.ws[j], d)} | 0 <= j < |s'.ws| ensures !Lost(ChanOf(s'.ws[j], d)) {
        assert !Lost(ChanOf(s.ws[j], d));
        ComputeKeepsChans(cfg, j, s.ws[j]);
      }
    }
  }

  lemma ComputeKeepsChans(cfg: Config, i: nat, w: Worker)
    ensures ComputeStep(cfg, i, w).down == w.down && ComputeStep(cfg, i, w).up == w.up
  {
  }

  lemma SenderKeepsUnlost(ch: Chan, may: bool, stamps: bool, src: seq<Cell>)
    requires CanSender(ch, may) && !Lost(ch) && !(ch.spc.SFlag? && ch.hs.cpc.CClear?)
    ensures !Lost(DoSender(ch, may, stamps, src).0)
  {
  }

  lemma ReceiverKeepsUnlost(ch: Chan, dst: seq<Cell>)
    requires CanReceiver(ch) && !Lost(ch)
    ensures !Lost(DoReceiver(ch, dst))
  {
  }

  lemma LinkPartKeepsUnlost(ch: Chan, part: Part)
    requires CanLinkPart(ch, part) && !Lost(ch) && Flagged(ch) <= ch.posted + 1
    ensures !Lost(LinkPart(ch, part))
  {
    if part.Client? {
      ClientKeepsUnlost(ch);
    }
    LinkPartEffect(ch, part);
    hide CanLinkPart;
    if !part.Client? {
      hide LinkPart;
    }
  }

  /** A step that flags a frame over a pending clear does lose it. */
  lemma OvertakingLoses(cfg: Config, s: State, a: Actor)
    requires ValidConfig(cfg) && Inv(cfg, s) && Enabled(s, a) && Overtakes(s, a)
    ensures !NoneLost(Step(cfg, s, a))
  {
    InvChain(cfg, s, a.i);
    assert WorkerOk(cfg, s, a.i);
    hide Inv, WorkerOk;
    var s' := Step(cfg, s, a);
    assert Lost(ChanOf(s'.ws[a.i], a.d));
  }

  // ---------- Schedules of the post and the clear ----------

  /** No frame is flagged while the clear for the previous one is pending. */
  ghost predicate Prompt(cfg: Config, s: State, acts: seq<Actor>)
    decreases |acts|
  {
    acts == [] ||
    (Enabled(s, acts[0]) && !Overtakes(s, acts[0]) && Prompt(cfg, Step(cfg, s, acts[0]), acts[1..]))
  }

  /** Post and clear as one step: a pending clear is what happens next. */
  ghost predicate Atomic(s: State, a: Actor) {
    forall i, d {:trigger ChanOf(s.ws[i], d)} | 0 <= i < |s.ws| && ChanOf(s.ws[i], d).hs.cpc.CClear? ::
      a == On(i, d, Client)
  }

  ghost predicate AtomicPosts(cfg: Config, s: State, acts: seq<Actor>)
    decreases |acts|
  {
    acts == [] || (Enabled(s, acts[0]) && Atomic(s, acts[0]) && AtomicPosts(cfg, Step(cfg, s, acts[0]), acts[1..]))
  }

  ghost predicate OnePending(s: State) {
    forall i, d, j, e {:trigger ChanOf(s.ws[i], d), ChanOf(s.ws[j], e)} |
      && 0 <= i < |s.ws| && ChanOf(s.ws[i], d).hs.cpc.CClear?
      && 0 <= j < |s.ws| && ChanOf(s.ws[j], e).hs.cpc.CClear? ::
      i == j && d == e
  }

  /** Only the handler itself moves it past a pending clear, and only it posts. */
  lemma PostedByClient(cfg: Config, s: State, a: Actor, i: nat, d: Dir)
    requires Enabled(s, a) && i < |s.ws|
    ensures |Step(cfg, s, a).ws| == |s.ws|
    ensures var ch, ch' := ChanOf(s.ws[i], d), ChanOf(Step(cfg, s, a).ws[i], d);
            && (a != On(i, d, Client) ==> ch'.posted == ch.posted && ch'.hs.cpc == ch.hs.cpc)
            && (ch'.posted != ch.posted ==> ch'.posted == ch.posted + 1 && ch'.hs.cpc.CClear?)
  {
    hide DoSender, DoReceiver, LinkPart, UnpackInPlace, CanSender, CanReceiver, CanLinkPart, ComputeStep;
    if a.On? {
      var w, ch := s.ws[a.i], ChanOf(s.ws[a.i], a.d);
      match a.part {
        case Sender =>
          SenderKeepsHandshake(ch, May(s, a.i, a.d), true, s.blocks[a.i]);
          SenderKeepsHandshake(ch, May(s, a.i, a.d), false, w.mem);
        case Receiver => ReceiverKeepsHandshake(ch, if a.d.Down? then w.mem else s.blocks[a.i]);
        case _ => LinkPartPosts(ch, a.part);
      }
    } else if a.Compute? {
      ComputeKeepsChans(cfg, a.i, s.ws[a.i]);
    }
  }

  lemma SenderKeepsHandshake(ch: Chan, may: bool, stamps: bool, src: seq<Cell>)
    requires CanSender(ch, may)
    ensures DoSender(ch, may, stamps, src).0.hs == ch.hs && DoSender(ch, may, stamps, src).0.posted == ch.posted
  {
  }

  lemma ReceiverKeepsHandshake(ch: Chan, dst: seq<Cell>)
    requires CanReceiver(ch)
    ensures DoReceiver(ch, dst).hs == ch.hs && DoReceiver(ch, dst).posted == ch.posted
  {
  }

  lemma LinkPartPosts(ch: Chan, part: Part)
    requires CanLinkPart(ch, part)
    ensures var ch' := LinkPart(ch, part);
            && (!part.Client? ==> ch'.posted == ch.posted && ch'.hs.cpc == ch.hs.cpc)
            && (ch'.posted != ch.posted ==> ch'.posted == ch.posted + 1 && ch'.hs.cpc.CClear?)
  {
    LinkPartEffect(ch, part);
    if !part.Client? {
      hide LinkPart, CanLinkPart;
    }
  }

  lemma AtomicKeepsOnePending(cfg: Config, s: State, a: Actor)
    requires Enabled(s, a) && Atomic(s, a)
    ensures OnePending(Step(cfg, s, a))
  {
    var t := Step(cfg, s, a);
    assert |t.ws| == |s.ws|;
    hide Step, Enabled;
    forall i, d {:trigger ChanOf(t.ws[i], d)} | 0 <= i < |t.ws| && a != On(i, d, Client)
      ensures !ChanOf(t.ws[i], d).hs.cpc.CClear?
    {
      PostedByClient(cfg, s, a, i, d);
      assert ChanOf(t.ws[i], d).hs.cpc == ChanOf(s.ws[i], d).hs.cpc;
    }
  }

  // ---------- Without a lost flag the run can be finished ----------

  /** A productive step that keeps every flag: pending clears first. */
  lemma SafeMove(cfg: Config, s: State) returns (a: Actor)
    requires ValidConfig(cfg) && Inv(cfg, s) && NoneLost(s)
    ensures Productive(s, a) && !Overtakes(s, a) && (OnePending(s) ==> Atomic(s, a))
  {
    if i, d :| 0 <= i < |s.ws| && ChanOf(s.ws[i], d).hs.cpc.CClear? {
      a := On(i, d, Client);
    } else {
      a := SomeoneMoves(cfg, s);
      assert forall i, d {:trigger ChanOf(s.ws[i], d)} | 0 <= i < |s.ws| :: !ChanOf(s.ws[i], d).hs.cpc.CClear?;
    }
  }

  lemma {:induction false} CanFinish(cfg: Config, s: State) returns (acts: seq<Actor>, s': State)
    requires ValidConfig(cfg) && Inv(cfg, s) && s.iterT <= cfg.rounds && NoneLost(s)
    ensures Runs(cfg, s, acts, s') && Exited(cfg, s') && (OnePending(s) ==> AtomicPosts(cfg, s, acts))
    decreases Bound(cfg) - Pos(cfg, s)
  {
    if Exited(cfg, s) {
      acts, s' := [], s;
    } else {
      var a := SafeMove(cfg, s);
      PosBounded(cfg, s);
      StepAdvances(cfg, s, a);
      StepKeeps(cfg, s, a);
      StepKeepsUnlost(cfg, s, a);
      if OnePending(s) {
        AtomicKeepsOnePending(cfg, s, a);
      }
      hide Inv, Pos, NoneLost, OnePending, Atomic;
      var t := Step(cfg, s, a);
      PosBounded(cfg, t);
      var rest;
      rest, s' := CanFinish(cfg, t);
      acts := [a] + rest;
      assert acts[1..] == rest;
    }
  }

  ghost predicate Finishable(cfg: Config, s: State) {
    exists acts, s' :: Runs(cfg, s, acts, s') && Exited(cfg, s')
  }

  lemma ReachableWithin(cfg: Config, s: State)
    requires ValidConfig(cfg) && Reachable(cfg, s)
    ensures Inv(cfg, s) && s.iterT <= cfg.rounds
  {
    var s0, acts :| Init(cfg, s0) && Runs(cfg, s0, acts, s);
    InitHolds(cfg, s0);
    RunAdvances(cfg, s0, acts, s);
  }

  /** The exact condition: a reachable state can still finish if and only if it is not doomed. */
  lemma FinishableIffNotDoomed(cfg: Config, s: State)
    requires ValidConfig(cfg) && Reachable(cfg, s)
    ensures Finishable(cfg, s) <==> !Doomed(cfg, s)
  {
    ReachableWithin(cfg, s);
    if Doomed(cfg, s) {
      forall acts, s' | Runs(cfg, s, acts, s') ensures !Exited(cfg, s') {
        DoomedNeverExits(cfg, s, acts, s');
      }
    } else if NoneLost(s) {
      var acts, s' := CanFinish(cfg, s);
    } else if Exited(cfg, s) {
      assert Runs(cfg, s, [], s);
    } else {
      // the last merge is done and only `iter_t++` is left
      var s' := Step(cfg, s, Merger);
      assert Runs(cfg, s', [], s');
      assert Runs(cfg, s, [Merger], s');
    }
  }

  // ---------- Doomed states exist ----------

  /** The PS handler of worker 0 has posted its first write and not yet cleared the flag. */
  predicate FirstPost(s: State) {
    s.ws != [] && s.ws[0].down.posted == 1 && s.ws[0].down.hs.cpc.CClear?
  }

  lemma {:induction false} ReachFirstPost(cfg: Config, s: State) returns (acts: seq<Actor>, s': State)
    requires ValidConfig(cfg) && Inv(cfg, s) && NoneLost(s)
    requires 2 <= cfg.rounds && s.iterT <= cfg.rounds && s.ws[0].down.posted == 0
    ensures Runs(cfg, s, acts, s') && Inv(cfg, s') && NoneLost(s') && s'.iterT <= cfg.rounds && FirstPost(s')
    decreases Bound(cfg) - Pos(cfg, s)
  {
    hide OnePending, Atomic;
    InvChain(cfg, s, 0);
    var a := SafeMove(cfg, s);
    PosBounded(cfg, s);
    StepAdvances(cfg, s, a);
    StepKeeps(cfg, s, a);
    StepKeepsUnlost(cfg, s, a);
    PostedByClient(cfg, s, a, 0, Down);
    hide Pos, WorkerOk, NoneLost, Step;
    var t := Step(cfg, s, a);
    assert ChanOf(t.ws[0], Down) == t.ws[0].down;
    var rest;
    if t.ws[0].down.posted == 0 {
      PosBounded(cfg, t) by { IterTBounded(cfg, s, a); }
      rest, s' := ReachFirstPost(cfg, t);
    } else {
      IterTBounded(cfg, s, a);
      rest, s' := [], t;
    }
    acts := [a] + rest;
    assert acts[1..] == rest;
  }

  lemma IterTBounded(cfg: Config, s: State, a: Actor)
    requires Enabled(s, a) && !Exited(cfg, s)
    ensures Step(cfg, s, a).iterT <= cfg.rounds
  {
  }

  /** Everyone but that handler runs on, until some flag is raised over a pending clear. */
  lemma {:induction false} ReachDoom(cfg: Config, s: State) returns (acts: seq<Actor>, s': State)
    requires ValidConfig(cfg) && Inv(cfg, s) && NoneLost(s) && FirstPost(s)
    requires 3 <= cfg.rounds && s.iterT <= cfg.rounds
    ensures Runs(cfg, s, acts, s') && Doomed(cfg, s')
    decreases Bound(cfg) - Pos(cfg, s)
  {
    InvChain(cfg, s, 0);
    var a := SomeoneMoves(cfg, s);
    PosBounded(cfg, s);
    StepAdvances(cfg, s, a);
    StepKeeps(cfg, s, a);
    IterTBounded(cfg, s, a);
    var t := Step(cfg, s, a);
    PostedByClient(cfg, s, a, 0, Down);
    assert ChanOf(t.ws[0], Down) == t.ws[0].down && ChanOf(s.ws[0], Down) == s.ws[0].down;
    hide Pos, WorkerOk, NoneLost, Step;
    InvChain(cfg, t, 0);
    var rest;
    if Overtakes(s, a) {
      OvertakingLoses(cfg, s, a);
      rest, s' := [], t;
    } else {
      StepKeepsUnlost(cfg, s, a);
      PosBounded(cfg, t);
      rest, s' := ReachDoom(cfg, t);
    }
    acts := [a] + rest;
    assert acts[1..] == rest;
  }

  /**
   With three rounds or more, some schedule of the posted write and the pending clear loses a flag:
   there is a reachable state from which the run never finishes. With fewer there is none.
   */
  lemma DoomIffThreeRounds(cfg: Config)
    requires ValidConfig(cfg)
    ensures (exists s :: Reachable(cfg, s) && Doomed(cfg, s)) <==> 3 <= cfg.rounds
  {
    if 3 <= cfg.rounds {
      var s0 := Start(cfg);
      InitHolds(cfg, s0);
      var acts, s1 := ReachFirstPost(cfg, s0);
      var acts', s2 := ReachDoom(cfg, s1);
      RunsJoin(cfg, s0, acts, s1, acts', s2);
      assert Reachable(cfg, s2);
    } else {
      forall s | Reachable(cfg, s) ensures !Doomed(cfg, s) {
        ReachableInv(cfg, s);
        FewRoundsLoseNothing(cfg, s);
      }
    }
  }

  lemma FewRoundsLoseNothing(cfg: Config, s: State)
    requires ValidConfig(cfg) && Inv(cfg, s) && cfg.rounds < 3
    ensures !Doomed(cfg, s)
  {
    if s.completed <= 0 {
      forall i, d {:trigger ChanOf(s.ws[i], d)} | 0 <= i < |s.ws| ensures !Lost(ChanOf(s.ws[i], d)) {
        FirstFrameNotLost(cfg, s, i, d);
      }
    }
  }

  lemma FirstFrameNotLost(cfg: Config, s: State, i: nat, d: Dir)
    requires ValidConfig(cfg) && Inv(cfg, s) && i < |s.ws| && s.completed <= 0
    ensures !Lost(ChanOf(s.ws[i], d))
  {
    InvChain(cfg, s, i);
    assert WorkerOk(cfg, s, i);
  }

  lemma {:induction false} RunsJoin(cfg: Config, s: State, a: seq<Actor>, t: State, b: seq<Actor>, u: State)
    requires Runs(cfg, s, a, t) && Runs(cfg, t, b, u)
    ensures Runs(cfg, s, a + b, u)
    decreases |a|
  {
    if a == [] {
      assert a + b == b;
    } else {
      RunsJoin(cfg, Step(cfg, s, a[0]), a[1..], t, b, u);
      assert (a + b)[1..] == a[1..] + b;
    }
  }

  function StartChan(cap: nat): (ch: Chan) {
    var buf := seq(cap, _ => Int(0));
    Chan(0, SIdle, buf, 0, false, Handshake(CRecv, 1, NoMsg, false, Quiet, false, VMr, 1, NoMsg), 0,
         buf, 0, 0, false, UIdle, 0, [], [])
  }

  function Start(cfg: Config): (s: State)
    ensures Init(cfg, s) && NoneLost(s)
  {
    var w := Worker(StartChan(cfg.cap), StartChan(cfg.cap), [], 0, -1, PIdle);
    State(0, -1, Scan(0), cfg.init, seq(|cfg.init|, _ => w))
  }

  // ---------- Prompt runs always finish ----------

  lemma InitLosesNothing(cfg: Config, s: State)
    requires Init(cfg, s)
    ensures NoneLost(s) && OnePending(s)
  {
    forall i, d {:trigger ChanOf(s.ws[i], d)} | 0 <= i < |s.ws| ensures !Lost(ChanOf(s.ws[i], d)) {
      assert InitChan(cfg, s.ws[i].down) && InitChan(cfg, s.ws[i].up);
    }
  }

  lemma {:induction false} AtomicPostsArePrompt(cfg: Config, s: State, acts: seq<Actor>)
    requires AtomicPosts(cfg, s, acts)
    ensures Prompt(cfg, s, acts)
    decreases |acts|
  {
    if acts != [] {
      AtomicPostsArePrompt(cfg, Step(cfg, s, acts[0]), acts[1..]);
    }
  }

  lemma {:induction false} PromptKeepsUnlost(cfg: Config, s: State, acts: seq<Actor>, s': State)
    requires ValidConfig(cfg) && Inv(cfg, s) && NoneLost(s) && Runs(cfg, s, acts, s') && Prompt(cfg, s, acts)
    ensures NoneLost(s')
    decreases |acts|
  {
    if acts != [] {
      StepKeeps(cfg, s, acts[0]);
      StepKeepsUnlost(cfg, s, acts[0]);
      PromptKeepsUnlost(cfg, Step(cfg, s, acts[0]), acts[1..], s');
    }
  }

  /**
   A prompt run is never stuck before the last round: some productive and prompt step is enabled, and
   it has only so many productive steps. `Fairness.PromptSchedulesEnd` concludes that it ends.
   */
  lemma PromptRunsFinish(cfg: Config, s0: State, acts: seq<Actor>, s: State)
    requires ValidConfig(cfg) && Init(cfg, s0) && Runs(cfg, s0, acts, s) && Prompt(cfg, s0, acts)
    ensures Exited(cfg, s) || exists a :: Productive(s, a) && !Overtakes(s, a)
    ensures Finishable(cfg, s)
    ensures ProductiveSteps(cfg, s0, acts) <= Bound(cfg)
  {
    InitHolds(cfg, s0);
    InitLosesNothing(cfg, s0);
    PromptKeepsUnlost(cfg, s0, acts, s);
    RunKeeps(cfg, s0, acts, s);
    var a := SafeMove(cfg, s);
    RunsAreBounded(cfg, s0, acts, s);
    assert Reachable(cfg, s);
    FinishableIffNotDoomed(cfg, s);
  }

  lemma {:induction false} AtomicRunKeepsOnePending(cfg: Config, s: State, acts: seq<Actor>, s': State)
    requires OnePending(s) && Runs(cfg, s, acts, s') && AtomicPosts(cfg, s, acts)
    ensures OnePending(s')
    decreases |acts|
  {
    hide Step, OnePending;
    if acts != [] {
      AtomicKeepsOnePending(cfg, s, acts[0]);
      AtomicRunKeepsOnePending(cfg, Step(cfg, s, acts[0]), acts[1..], s');
    }
  }

  /** Nor is a run in which post and clear are one step: one more such step is always possible. */
  lemma AtomicRunsFinish(cfg: Config, s0: State, acts: seq<Actor>, s: State)
    requires ValidConfig(cfg) && Init(cfg, s0) && Runs(cfg, s0, acts, s) && AtomicPosts(cfg, s0, acts)
    ensures Exited(cfg, s) || exists a :: Productive(s, a) && Atomic(s, a)
    ensures ProductiveSteps(cfg, s0, acts) <= Bound(cfg)
  {
    hide OnePending, Atomic, Productive, Inv;
    InitHolds(cfg, s0);
    InitLosesNothing(cfg, s0);
    AtomicPostsArePrompt(cfg, s0, acts);
    PromptKeepsUnlost(cfg, s0, acts, s);
    AtomicRunKeepsOnePending(cfg, s0, acts, s);
    RunKeeps(cfg, s0, acts, s);
    var a := SafeMove(cfg, s);
    RunsAreBounded(cfg, s0, acts, s);
  }

  /** When the last round is reached, every result of the ages before the last has been unpacked. */
  lemma ExitHasAllResults(cfg: Config, s: State, i: nat, k: nat)
    requires ValidConfig(cfg) && Reachable(cfg, s) && Exited(cfg, s) && i < |cfg.init| && k + 1 < cfg.rounds
    ensures |s.ws| == |cfg.init| && s.iterT == cfg.rounds
    ensures k < |s.ws[i].up.got| && s.ws[i].up.got[k] == Body(cfg, i, k + 1)
  {
    ReachableWithin(cfg, s);
    InvChain(cfg, s, i);
    ExactlyOnceInOrder(cfg, s, i, Up);
    assert ChanOf(s.ws[i], Up).got[k] == ChanOf(s.ws[i], Up).sent[k] == FrameNo(cfg, i, Up, k);
  }
}
