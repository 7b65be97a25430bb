/**
 All objects of a run together: the PS's counters and blocks, and for each worker its two connections,
 its memory and its counters. A schedule says which thread makes the next access; running it on the
 objects is a run of `Rounds`, so everything proved there holds of the objects.
 */
module Clusters {
  import opened Cells
  import opened Link
  import opened Rounds
  import opened Connections
  import opened Liveness

  /** The accesses that involve neither the PS's counters nor its blocks. */
  predicate Private(a: Actor) {
    a.Compute? || (a.On? && (a.part.Sender? ==> a.d.Up?) && (a.part.Receiver? ==> a.d.Down?))
  }

  function IndexOf(a: Actor): nat
    requires !a.Merger?
  {
    a.i
  }

  predicate CanAlone(w: Worker, a: Actor)
    requires Private(a)
  {
    match a
    case Compute(_) => w.pc.PIdle? ==> w.iterT < w.down.unpacked
    case On(_, _, Sender) => CanSender(w.up, w.up.staged == w.completed)
    case On(_, _, Receiver) => CanReceiver(w.down)
    case On(_, d, part) => CanLinkPart(ChanOf(w, d), part)
  }

  function Alone(cfg: Config, w: Worker, a: Actor): Worker
    requires Private(a) && CanAlone(w, a)
  {
    match a
    case Compute(i) => ComputeStep(cfg, i, w)
    case On(_, _, Sender) => w.(up := DoSender(w.up, w.up.staged == w.completed, false, w.mem).0)
    case On(_, _, Receiver) => w.(down := DoReceiver(w.down, w.mem), mem := UnpackFresh(w.down, w.mem))
    case On(_, d, part) => SetChan(w, d, LinkPart(ChanOf(w, d), part))
  }

  /** Such an access is a step of the whole system that replaces one worker. */
  lemma PrivateStep(cfg: Config, s: State, a: Actor)
    requires Private(a) && IndexOf(a) < |s.ws| == |s.blocks|
    ensures Enabled(s, a) == CanAlone(s.ws[IndexOf(a)], a)
    ensures Enabled(s, a) ==> Step(cfg, s, a) == s.(ws := s.ws[IndexOf(a) := Alone(cfg, s.ws[IndexOf(a)], a)])
  {
    hide ComputeStep, DoSender, DoReceiver, UnpackFresh, LinkPart, CanLinkPart, CanSender, CanReceiver;
  }

  lemma SendDownStep(cfg: Config, s: State, i: nat)
    requires i < |s.ws| == |s.blocks|
    ensures Enabled(s, On(i, Down, Sender)) == CanSender(s.ws[i].down, s.ws[i].down.staged <= s.completed)
    ensures Enabled(s, On(i, Down, Sender)) ==>
              var (ch, block) := DoSender(s.ws[i].down, s.ws[i].down.staged <= s.completed, true, s.blocks[i]);
              Step(cfg, s, On(i, Down, Sender)) ==
                s.(blocks := s.blocks[i := block], ws := s.ws[i := s.ws[i].(down := ch)])
  {
    hide DoSender, CanSender;
  }

  lemma ReceiveUpStep(cfg: Config, s: State, i: nat)
    requires i < |s.ws| == |s.blocks|
    ensures Enabled(s, On(i, Up, Receiver)) == CanReceiver(s.ws[i].up)
    ensures Enabled(s, On(i, Up, Receiver)) ==>
              Step(cfg, s, On(i, Up, Receiver)) ==
                s.(blocks := UnpackInPlace(s.ws[i].up, s.blocks),
                   ws := s.ws[i := s.ws[i].(up := DoReceiver(s.ws[i].up, s.blocks[i]))])
  {
    hide DoReceiver, CanReceiver, UnpackInPlace;
  }

  ghost predicate Starting(cfg: Config, w: Worker) {
    InitChan(cfg, w.down) && InitChan(cfg, w.up) && w.iterT == 0 && w.completed == -1 && w.pc == PIdle
  }

  class Node {
    const down: Connection
    const up: Connection
    var mem: seq<Cell>
    var iterT: nat
    var completed: int
    var pc: CpuPc

    ghost function Objects(): set<object> {
      {this,
       down, down.client, down.server, down.client.buffer, down.server.buffer,
       up, up.client, up.server, up.client.buffer, up.server.buffer}
    }

    /** The worker's sending thread has no ages to stamp. */
    ghost predicate Valid()
      reads Objects()
    {
      && !up.sendPc.SStampP? && !up.sendPc.SStampQ?
      && down.Valid() && up.Valid() && down != up && down.client != up.client && down.server != up.server
      && {down.client.buffer, down.server.buffer} !! {up.client.buffer, up.server.buffer}
    }

    ghost function Abs(): Worker
      reads Objects()
    {
      Worker(down.Abs(), up.Abs(), mem, iterT, completed, pc)
    }

    /** worker.cu:90-93, with both connections established. */
    constructor (cfg: Config)
      ensures Valid() && fresh(Objects()) && Starting(cfg, Abs())
    {
      down := new Connection(cfg.cap);
      up := new Connection(cfg.cap);
      mem, iterT, completed, pc := [], 0, -1, PIdle;
    }

    /** The connection that a part of direction d belongs to. */
    function Of(d: Dir): Connection {
      if d.Down? then down else up
    }

    /** A handler or the wire makes an access. */
    method LinkTurn(d: Dir, part: Part) returns (moved: bool)
      requires Valid() && !part.Sender? && !part.Receiver?
      modifies Objects()
      ensures Valid()
      ensures moved == CanLinkPart(old(ChanOf(Abs(), d)), part)
      ensures Abs() == if moved then SetChan(old(Abs()), d, LinkPart(old(ChanOf(Abs(), d)), part)) else old(Abs())
    {
      hide DoClient, DoCtl, DoWire, DoServer, CanClient, CanCtl, CanWire, CanServer;
      var c := Of(d);
      match part
      case Client => moved := c.ClientOnCompletion();
      case Ctl => moved := c.DeliverControl();
      case Write => moved := c.MoveWrite();
      case Server => moved := c.ServerOnCompletion();
    }

    /** The main thread of the worker makes an access, or computes one sample (worker.cu:128-159). */
    method ComputeTurn(cfg: Config, i: nat) returns (moved: bool)
      requires Valid()
      modifies this
      ensures Valid()
      ensures moved == (old(pc).PIdle? ==> old(iterT) < old(down.unpacked))
      ensures Abs() == if moved then ComputeStep(cfg, i, old(Abs())) else old(Abs())
    {
      moved := true;
      match pc
      case PIdle =>
        if iterT >= down.unpacked { return false; }
        pc := PRun(0);
      case PRun(s) =>
        if s < cfg.samples {
          mem := cfg.micro(i, iterT, s, mem);
          pc := PRun(s + 1);
        } else {
          completed := iterT;
          pc := PBump;
        }
      case PBump =>
        iterT := iterT + 1;
        pc := PIdle;
    }

    /** rdma_recvTd of the worker makes an access. */
    method ReceiveTurn() returns (moved: bool)
      requires Valid()
      modifies Objects()
      ensures Valid()
      ensures moved == CanReceiver(old(Abs().down))
      ensures Abs() == if moved then old(Abs()).(down := DoReceiver(old(Abs().down), old(mem)),
                                                 mem := UnpackFresh(old(Abs().down), old(mem)))
                       else old(Abs())
    {
      moved, mem := down.ReceiveFresh(mem);
    }

    /** rdma_sendTd of the worker makes an access (worker.cu:309-336). */
    method SendTurn() returns (moved: bool)
      requires Valid()
      modifies Objects()
      ensures Valid()
      ensures moved == CanSender(old(Abs().up), old(up.toSend) == old(completed))
      ensures var may := old(up.toSend) == old(completed);
              Abs() == if moved then old(Abs()).(up := DoSender(old(Abs().up), may, false, old(mem)).0) else old(Abs())
    {
      moved := up.SendFrom(up.toSend == completed, mem);
    }

    /** rdma_sendTd of the PS makes an access: it stamps and packs `block` (ps.cpp:293-326). */
    method SendStampedTurn(may: bool, block: array<Cell>) returns (moved: bool)
      requires Valid() && block !in Objects()
      modifies Objects(), block
      ensures Valid()
      ensures moved == CanSender(old(Abs().down), may)
      ensures moved ==>
                var (ch, b) := DoSender(old(Abs().down), may, true, old(block[..]));
                Abs() == old(Abs()).(down := ch) && block[..] == b
      ensures !moved ==> Abs() == old(Abs()) && block[..] == old(block[..])
    {
      hide DoSender;
      moved := down.SendStamped(may, block);
    }

    /** rdma_recvTd of the PS makes an access: it unpacks where the headers say (ps.cpp:339-394). */
    method ReceiveInPlaceTurn(blocks: seq<array<Cell>>, i: nat) returns (moved: bool)
      requires Valid() && i < |blocks|
      requires forall j, k | 0 <= j < k < |blocks| :: blocks[j] != blocks[k]
      requires forall j | 0 <= j < |blocks| :: blocks[j] !in Objects()
      modifies Objects(), blocks
      ensures Valid()
      ensures moved == CanReceiver(old(Abs().up))
      ensures Abs() == if moved then old(Abs()).(up := DoReceiver(old(Abs().up), old(blocks[i][..]))) else old(Abs())
      ensures Contents(blocks) ==
              if moved then UnpackInPlace(old(Abs().up), old(Contents(blocks))) else old(Contents(blocks))
    {
      hide DoReceiver, UnpackInPlace;
      moved := up.ReceiveInPlace(blocks, i);
    }

    /** Any access of the worker that is private to it. */
    method Turn(cfg: Config, a: Actor) returns (moved: bool)
      requires Valid() && Private(a)
      modifies Objects()
      ensures Valid()
      ensures moved == CanAlone(old(Abs()), a)
      ensures Abs() == if moved then Alone(cfg, old(Abs()), a) else old(Abs())
    {
      hide ComputeStep, DoSender, DoReceiver, UnpackFresh, LinkPart, CanLinkPart, CanSender, CanReceiver;
      match a
      case Compute(i) => moved := ComputeTurn(cfg, i);
      case On(_, _, Sender) => moved := SendTurn();
      case On(_, _, Receiver) => moved := ReceiveTurn();
      case On(_, d, part) => moved := LinkTurn(d, part);
    }
  }

  /** Give the actors turns in this order; those that are not enabled wait, and the PS's exit ends it all. */
  function Scheduled(cfg: Config, s: State, turns: seq<Actor>): State
    decreases |turns|
  {
    if turns == [] || Exited(cfg, s) then s
    else Scheduled(cfg, if Enabled(s, turns[0]) then Step(cfg, s, turns[0]) else s, turns[1..])
  }

  lemma NextTurn(cfg: Config, s: State, turns: seq<Actor>, n: nat)
    requires n < |turns| && !Exited(cfg, s)
    ensures Scheduled(cfg, s, turns[n..]) ==
            Scheduled(cfg, if Enabled(s, turns[n]) then Step(cfg, s, turns[n]) else s, turns[n + 1..])
  {
    hide Step, Enabled;
    assert turns[n..][1..] == turns[n + 1..];
  }

  lemma NoTurnLeft(cfg: Config, s: State, turns: seq<Actor>)
    requires turns == [] || Exited(cfg, s)
    ensures Scheduled(cfg, s, turns) == s
  {
  }

  lemma {:induction false} ScheduledRuns(cfg: Config, s: State, turns: seq<Actor>) returns (acts: seq<Actor>)
    ensures Runs(cfg, s, acts, Scheduled(cfg, s, turns))
    decreases |turns|
  {
    hide Step, Enabled;
    if turns == [] || Exited(cfg, s) {
      acts := [];
    } else if Enabled(s, turns[0]) {
      var rest := ScheduledRuns(cfg, Step(cfg, s, turns[0]), turns[1..]);
      acts := [turns[0]] + rest;
      assert acts[1..] == rest;
    } else {
      acts := ScheduledRuns(cfg, s, turns[1..]);
    }
  }

  lemma {:induction false} RunIsScheduled(cfg: Config, s: State, acts: seq<Actor>, s': State)
    requires Runs(cfg, s, acts, s')
    ensures Scheduled(cfg, s, acts) == s'
    decreases |acts|
  {
    hide Step, Enabled;
    if acts != [] {
      RunIsScheduled(cfg, Step(cfg, s, acts[0]), acts[1..], s');
    }
  }

  /** What schedules lead to is what runs lead to. */
  lemma SchedulesAreRuns(cfg: Config, s: State, s': State)
    ensures (exists turns :: Scheduled(cfg, s, turns) == s') <==> (exists acts :: Runs(cfg, s, acts, s'))
  {
    hide Scheduled, Runs;
    if turns :| Scheduled(cfg, s, turns) == s' {
      var acts := ScheduledRuns(cfg, s, turns);
    }
    if acts :| Runs(cfg, s, acts, s') {
      RunIsScheduled(cfg, s, acts, s');
    }
  }

  lemma ScheduledIsReachable(cfg: Config, s: State, turns: seq<Actor>)
    ensures Reachable(cfg, s) ==> Reachable(cfg, Scheduled(cfg, s, turns))
  {
    hide Scheduled, Step, Enabled;
    if Reachable(cfg, s) {
      var s0, before :| Init(cfg, s0) && Runs(cfg, s0, before, s);
      var acts := ScheduledRuns(cfg, s, turns);
      RunsJoin(cfg, s0, before, s, acts, Scheduled(cfg, s, turns));
    }
  }

  method NewNodes(cfg: Config, blocks: seq<array<Cell>>) returns (nodes: seq<Node>)
    ensures |nodes| == |blocks|
    ensures forall k | 0 <= k < |nodes| ::
              fresh(nodes[k].Objects()) && nodes[k].Valid() && Starting(cfg, nodes[k].Abs())
    ensures forall j, k | 0 <= j < k < |nodes| :: nodes[j].Objects() !! nodes[k].Objects()
  {
    hide Starting, Node.Objects, Node.Valid, Node.Abs;
    nodes := [];
    ghost var seen: set<object> := {};
    while |nodes| < |blocks|
      invariant |nodes| <= |blocks| && fresh(seen)
      invariant forall k | 0 <= k < |nodes| ::
                  nodes[k].Objects() <= seen && nodes[k].Valid() && Starting(cfg, nodes[k].Abs())
      invariant forall j, k | 0 <= j < k < |nodes| :: nodes[j].Objects() !! nodes[k].Objects()
    {
      var node := new Node(cfg);
      nodes := nodes + [node];
      seen := seen + node.Objects();
    }
  }

  lemma NoCluster(node: Node, c: Cluster)
    ensures c !in node.Objects()
  {
  }

  class Cluster {
    const cfg: Config
    const blocks: seq<array<Cell>>
    const nodes: seq<Node>
    var iterT: nat
    var completed: int
    var mpc: MainPc

    ghost function NodeObjects(): set<object> {
      set k, o | 0 <= k < |nodes| && o in nodes[k].Objects() :: o
    }

    /** No object belongs to two workers, and no block is a buffer. */
    ghost predicate Valid()
      reads NodeObjects()
    {
      && |blocks| == |nodes|
      && (forall k | 0 <= k < |nodes| :: nodes[k].Valid() && this !in nodes[k].Objects())
      && (forall j, k | 0 <= j < k < |nodes| :: nodes[j].Objects() !! nodes[k].Objects())
      && (forall j, k | 0 <= j < k < |blocks| :: blocks[j] != blocks[k])
      && (forall j, k | 0 <= j < |blocks| && 0 <= k < |nodes| :: blocks[j] !in nodes[k].Objects())
    }

    ghost function Workers(): (r: seq<Worker>)
      reads NodeObjects()
      ensures |r| == |nodes| && forall k | 0 <= k < |nodes| :: r[k] == nodes[k].Abs()
    {
      seq(|nodes|, k requires 0 <= k < |nodes| reads NodeObjects() => nodes[k].Abs())
    }

    ghost function Abs(): State
      reads this, blocks, NodeObjects()
    {
      State(iterT, completed, mpc, Contents(blocks), Workers())
    }

    /** Fresh connections and counters around the given blocks: the initial state of a run (ps.cpp:72-134). */
    constructor (cfg: Config, blocks: seq<array<Cell>>)
      requires Contents(blocks) == cfg.init
      requires forall j, k | 0 <= j < k < |blocks| :: blocks[j] != blocks[k]
      ensures this.cfg == cfg && this.blocks == blocks && fresh(NodeObjects())
      ensures Valid() && Init(cfg, Abs()) && Reachable(cfg, Abs())
    {
      hide Node.Objects, Node.Valid, Node.Abs;
      var ns := NewNodes(cfg, blocks);
      this.cfg, this.blocks, nodes := cfg, blocks, ns;
      iterT, completed, mpc := 0, -1, Scan(0);
      new;
      forall k | 0 <= k < |nodes| ensures this !in nodes[k].Objects() {
        NoCluster(nodes[k], this);
      }
      assert forall k | 0 <= k < |nodes| :: nodes[k].Valid() && Starting(cfg, nodes[k].Abs());
      assert Runs(cfg, Abs(), [], Abs());
    }

    /** The main thread's variables belong to no worker. */
    method SetMain(t: nat, c: int, pc: MainPc)
      requires Valid()
      modifies this
      ensures Valid()
      ensures Abs() == old(Abs()).(iterT := t, completed := c, mpc := pc)
    {
      iterT, completed, mpc := t, c, pc;
      assert Workers() == old(Workers());
    }

    /** One access of the PS main thread (ps.cpp:142-201). */
    method MergeTurn()
      requires Valid()
      modifies this
      ensures Valid()
      ensures Abs() == MergeStep(old(Abs()))
    {
      match mpc
      case Scan(j) =>
        if j < |nodes| {
          SetMain(iterT, completed, if iterT > nodes[j].up.unpacked then Scan(0) else Scan(j + 1));
        } else {
          SetMain(iterT, iterT, Bump);
        }
      case Bump => SetMain(iterT + 1, completed, Scan(0));
    }

    /** One access of the PS's sending thread for worker i. */
    method SendDown(i: nat) returns (moved: bool)
      requires Valid() && i < |nodes|
      modifies nodes[i].Objects(), blocks[i]
      ensures Valid()
      ensures moved == Enabled(old(Abs()), On(i, Down, Sender))
      ensures Abs() == if moved then Step(cfg, old(Abs()), On(i, Down, Sender)) else old(Abs())
    {
      hide DoSender, CanSender, Enabled, Step;
      SendDownStep(cfg, Abs(), i);
      moved := nodes[i].SendStampedTurn(nodes[i].down.toSend <= completed, blocks[i]);
      assert Workers() == old(Workers())[i := nodes[i].Abs()];
      assert Contents(blocks) == old(Contents(blocks))[i := blocks[i][..]];
    }

    /** One access of the PS's receiving thread for worker i. */
    method ReceiveUp(i: nat) returns (moved: bool)
      requires Valid() && i < |nodes|
      modifies nodes[i].Objects(), blocks
      ensures Valid()
      ensures moved == Enabled(old(Abs()), On(i, Up, Receiver))
      ensures Abs() == if moved then Step(cfg, old(Abs()), On(i, Up, Receiver)) else old(Abs())
    {
      hide DoReceiver, CanReceiver, UnpackInPlace, Enabled, Step;
      ReceiveUpStep(cfg, Abs(), i);
      moved := nodes[i].ReceiveInPlaceTurn(blocks, i);
      assert Workers() == old(Workers())[i := nodes[i].Abs()];
    }

    /** An access that concerns worker i's own objects only. */
    method NodeTurn(i: nat, a: Actor) returns (moved: bool)
      requires Valid() && i < |nodes| && Private(a) && IndexOf(a) == i
      modifies nodes[i].Objects()
      ensures Valid()
      ensures moved == Enabled(old(Abs()), a)
      ensures Abs() == if moved then Step(cfg, old(Abs()), a) else old(Abs())
    {
      hide CanAlone, Alone, Enabled, Step, Private;
      PrivateStep(cfg, Abs(), a);
      moved := nodes[i].Turn(cfg, a);
      assert Workers() == old(Workers())[i := nodes[i].Abs()];
      assert Contents(blocks) == old(Contents(blocks));
    }

    /** Any thread, handler or wire makes its next access, or waits because it is not enabled. */
    method Turn(a: Actor) returns (moved: bool)
      requires Valid()
      modifies this, NodeObjects(), blocks
      ensures Valid()
      ensures moved == Enabled(old(Abs()), a)
      ensures Abs() == if moved then Step(cfg, old(Abs()), a) else old(Abs())
    {
      if a.Merger? {
        MergeTurn();
        moved := true;
      } else if a.i >= |nodes| {
        moved := false;
      } else if a.On? && a.d.Down? && a.part.Sender? {
        moved := SendDown(a.i);
      } else if a.On? && a.d.Up? && a.part.Receiver? {
        moved := ReceiveUp(a.i);
      } else {
        moved := NodeTurn(a.i, a);
      }
    }

    /** Let the threads take turns in the order of `turns` until the PS exits. */
    method Run(turns: seq<Actor>)
      requires Valid()
      modifies this, NodeObjects(), blocks
      ensures Valid() && Abs() == Scheduled(cfg, old(Abs()), turns)
      ensures old(Reachable(cfg, Abs())) ==> Reachable(cfg, Abs())
    {
      hide Step, Enabled, Valid, Node.Objects, Reachable, Scheduled;
      ghost var s := Abs();
      var n := 0;
      while n < |turns| && iterT < cfg.rounds
        invariant n <= |turns| && Valid() && Scheduled(cfg, Abs(), turns[n..]) == Scheduled(cfg, s, turns)
      {
        NextTurn(cfg, Abs(), turns, n);
        var moved := Turn(turns[n]);
        n := n + 1;
      }
      NoTurnLeft(cfg, Abs(), turns[n..]);
      ScheduledIsReachable(cfg, s, turns);
    }
  }
}
