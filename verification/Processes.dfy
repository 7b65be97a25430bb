/**
 The main loops of the two programs on their global variables (ps.cpp:142-201, worker.cu:128-184),
 and the bodies of the PS's sending and receiving threads on its block arrays.
 */
module Processes {
  import opened Cells
  import opened Frames
  import opened Rounds
  import opened Progress
  import Sgd

  // ---------- The PS ----------

  class ParameterServer {
    var iterT: nat
    var completedIter: int
    /** `recved_iter`, one entry per worker. */
    const recvedIter: array<int>

    constructor (workerNum: nat)
      ensures iterT == 0 && completedIter == -1
      ensures fresh(recvedIter) && recvedIter.Length == workerNum
      ensures forall i | 0 <= i < workerNum :: recvedIter[i] == -1
    {
      iterT, completedIter := 0, -1;
      recvedIter := new int[workerNum](_ => -1);
    }

    /** ps.cpp:173-188: false as soon as one worker is behind. */
    method CanMerge(comingIter: int) returns (can: bool)
      ensures can <==> forall i | 0 <= i < recvedIter.Length :: comingIter <= recvedIter[i] + 1
    {
      var i := 0;
      while i < recvedIter.Length
        invariant 0 <= i <= recvedIter.Length
        invariant forall j | 0 <= j < i :: comingIter <= recvedIter[j] + 1
      {
        if comingIter > recvedIter[i] + 1 {
          return false;
        }
        i := i + 1;
      }
      return true;
    }

    /** One pass of the main loop (ps.cpp:142-168); `exits` says that the process ends with it. */
    method MainLoop(rounds: nat) returns (merged: bool, exits: bool)
      modifies this
      ensures merged <==> forall i | 0 <= i < recvedIter.Length :: old(iterT) <= recvedIter[i] + 1
      ensures completedIter == (if merged then old(iterT) else old(completedIter))
      ensures iterT == (if merged then old(iterT) + 1 else old(iterT))
      ensures exits <==> merged && iterT == rounds
    {
      merged := CanMerge(iterT);
      exits := false;
      if merged {
        completedIter := iterT;
        iterT := iterT + 1;
        exits := iterT == rounds;
      }
    }
  }

  function Repeat(n: nat, a: Actor): (r: seq<Actor>)
    ensures |r| == n
  {
    seq(n, _ => a)
  }

  /** The same pass, step by step and uninterrupted: n reads that succeed and the two updates. */
  lemma MainLoopIsSteps(cfg: Config, s: State)
    requires s.mpc == Scan(0) && AllReady(s) && !Exited(cfg, s)
    ensures Runs(cfg, s, Repeat(|s.ws| + 2, Merger),
                 s.(iterT := s.iterT + 1, completed := s.iterT, mpc := Scan(0)))
  {
    ScanSucceeds(cfg, s, 0);
  }

  lemma {:induction false} ScanSucceeds(cfg: Config, s: State, j: nat)
    requires s.mpc == Scan(j) && j <= |s.ws| && AllReady(s) && !Exited(cfg, s)
    ensures Runs(cfg, s, Repeat(|s.ws| - j + 2, Merger),
                 s.(iterT := s.iterT + 1, completed := s.iterT, mpc := Scan(0)))
    decreases |s.ws| - j
  {
    var acts := Repeat(|s.ws| - j + 2, Merger);
    var t := Step(cfg, s, Merger);
    assert acts[1..] == Repeat(|s.ws| - j + 1, Merger);
    if j < |s.ws| {
      ScanSucceeds(cfg, t, j + 1);
    } else {
      var u := Step(cfg, t, Merger);
      assert acts[1..][1..] == [];
      assert Runs(cfg, u, [], u);
      assert Runs(cfg, t, acts[1..], u);
    }
  }

  /** rdma_sendTd of the PS for worker i: both ages stamped in the global blocks, then the frame (ps.cpp:302-321). */
  method StageFrame(pBlocks: array<Block>, qBlocks: array<Block>, i: nat, toSendIter: int, buf: array<Cell>)
    returns (totalLen: nat)
    requires pBlocks != qBlocks && i < pBlocks.Length && i < qBlocks.Length
    requires Owned(pBlocks[i]) && Owned(qBlocks[i])
    requires 2 * HEADER + pBlocks[i].eles.Length + qBlocks[i].eles.Length <= buf.Length
    modifies pBlocks, qBlocks, buf
    ensures pBlocks[..] == old(pBlocks[..])[i := old(pBlocks[i]).(dataAge := toSendIter)]
    ensures qBlocks[..] == old(qBlocks[..])[i := old(qBlocks[i]).(dataAge := toSendIter)]
    ensures ParsePair(buf[..]) ==
            (old(Val(pBlocks[i])).(age := toSendIter), old(Val(qBlocks[i])).(age := toSendIter))
    ensures FrameLen(buf[..]) == totalLen == 2 * HEADER + old(pBlocks[i].eles.Length) + old(qBlocks[i].eles.Length)
    ensures buf[totalLen..] == old(buf[totalLen..])
  {
    hide ParsePair, FrameLen;
    pBlocks[i] := pBlocks[i].(dataAge := toSendIter);
    qBlocks[i] := qBlocks[i].(dataAge := toSendIter);
    totalLen := PackPair(buf, pBlocks[i], qBlocks[i]);
  }

  /**
   rdma_recvTd of the PS: whatever pair the buffer holds is unpacked into the blocks its headers name
   (ps.cpp:356-384). The requirements are what `Safety.UnpackingInBounds` and
   `Safety.ShapesAreConserved` provide.
   */
  method UnpackFrame(pBlocks: array<Block>, qBlocks: array<Block>, buf: array<Cell>)
    requires pBlocks != qBlocks && FrameLen(buf[..]) <= buf.Length
    requires 0 <= IntAt(buf[..], ID) < pBlocks.Length
    requires 0 <= IntAt(buf[..], QBase(buf[..]) + ID) < qBlocks.Length
    requires IntAt(buf[..], ELE_NUM) == pBlocks[IntAt(buf[..], ID)].eles.Length
    requires IntAt(buf[..], QBase(buf[..]) + ELE_NUM) == qBlocks[IntAt(buf[..], QBase(buf[..]) + ID)].eles.Length
    requires pBlocks[IntAt(buf[..], ID)].eles != qBlocks[IntAt(buf[..], QBase(buf[..]) + ID)].eles
    modifies pBlocks, qBlocks
    modifies pBlocks[IntAt(buf[..], ID)].eles, qBlocks[IntAt(buf[..], QBase(buf[..]) + ID)].eles
    ensures var (p, q) := ParsePair(buf[..]);
            && 0 <= p.id < pBlocks.Length && Val(pBlocks[p.id]) == p
            && 0 <= q.id < qBlocks.Length && Val(qBlocks[q.id]) == q
            && pBlocks[p.id].eles == old(pBlocks[p.id].eles) && qBlocks[q.id].eles == old(qBlocks[q.id].eles)
            && (forall i | 0 <= i < pBlocks.Length && i != p.id :: pBlocks[i] == old(pBlocks[i]))
            && (forall i | 0 <= i < qBlocks.Length && i != q.id :: qBlocks[i] == old(qBlocks[i]))
  {
    UnpackBlockInPlace(buf, 0, pBlocks);
    UnpackBlockInPlace(buf, QBase(buf[..]), qBlocks);
  }

  // ---------- The worker ----------

  class WorkerProcess {
    var iterT: int
    var recvedAge: int
    var completedIter: int
    var pBlock: Block
    var qBlock: Block

    constructor (p: Block, q: Block)
      ensures iterT == 0 && recvedAge == -1 && completedIter == -1 && pBlock == p && qBlock == q
    {
      iterT, recvedAge, completedIter := 0, -1, -1;
      pBlock, qBlock := p, q;
    }

    /** One pass of the main loop (worker.cu:128-159): compute once when the pair of this round is here. */
    method MainLoop(draws: seq<nat>) returns (computed: bool)
      requires 2 * Sgd.SAMPLE_NUM <= |draws| && pBlock.eles != qBlock.eles
      requires iterT <= recvedAge ==>
                 && pBlock.height > 0 && Sgd.Holds(pBlock.eles[..], pBlock.height)
                 && qBlock.height > 0 && Sgd.Holds(qBlock.eles[..], qBlock.height)
      modifies this, pBlock.eles, qBlock.eles
      ensures pBlock == old(pBlock) && qBlock == old(qBlock) && recvedAge == old(recvedAge)
      ensures computed <==> old(iterT) <= recvedAge
      ensures completedIter == (if computed then old(iterT) else old(completedIter))
      ensures iterT == (if computed then old(iterT) + 1 else old(iterT))
      ensures computed ==>
                (pBlock.eles[..], qBlock.eles[..]) ==
                Sgd.Samples(old(pBlock.eles[..]), old(qBlock.eles[..]), pBlock.height, qBlock.height,
                            draws, Sgd.SAMPLE_NUM)
      ensures !computed ==> pBlock.eles[..] == old(pBlock.eles[..]) && qBlock.eles[..] == old(qBlock.eles[..])
    {
      hide Sgd.Samples, Sgd.RowsBounded;
      computed := iterT <= recvedAge;
      if computed {
        Sgd.FakeSubMF(pBlock.eles, qBlock.eles, pBlock.height, qBlock.height, draws);
        completedIter := iterT;
        iterT := iterT + 1;
      }
    }
  }
}
