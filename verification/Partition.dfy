/**
 partitionBlock (ps.cpp:258-282): cutting rc_num rows into portion_num blocks of equal height, the
 last ones shorter or empty, and the sizes that follow from it.
 */
module Partition {
  import opened Frames
  import opened Arith
  import opened Params

  /** The height every block would like to have: rc / p rounded up. */
  function Ceil(rc: nat, p: nat): nat
    requires p > 0
  {
    (rc + p - 1) / p
  }

  /** Rows that belong to the blocks before block i. */
  function Before(rc: nat, p: nat, i: nat): nat
    requires p > 0
  {
    if i * Ceil(rc, p) <= rc then i * Ceil(rc, p) else rc
  }

  function Height(rc: nat, p: nat, i: nat): int
    requires p > 0
  {
    Before(rc, p, i + 1) - Before(rc, p, i)
  }

  function SumHeights(rc: nat, p: nat, i: nat): int
    requires p > 0
  {
    if i == 0 then 0 else SumHeights(rc, p, i - 1) + Height(rc, p, i - 1)
  }

  lemma CeilBounds(rc: nat, p: nat)
    requires p > 0
    ensures rc <= p * Ceil(rc, p) <= rc + p - 1
  {
    var q, r := (rc + p - 1) / p, (rc + p - 1) % p;
    assert rc + p - 1 == p * q + r;
  }

  lemma {:induction false} SumIsBefore(rc: nat, p: nat, i: nat)
    requires p > 0
    ensures SumHeights(rc, p, i) == Before(rc, p, i)
  {
    if i > 0 {
      SumIsBefore(rc, p, i - 1);
    }
  }

  /** The branch of the source: a full block while one still fits, the rest after that. */
  lemma HeightByBranch(rc: nat, p: nat, i: nat)
    requires p > 0
    ensures Height(rc, p, i) ==
            if Before(rc, p, i) + Ceil(rc, p) <= rc then Ceil(rc, p) else rc - Before(rc, p, i)
    ensures 0 <= Height(rc, p, i) <= Ceil(rc, p)
  {
    MulNext(i, Ceil(rc, p));
  }

  /** Row x is one of the rows [sta_idx, sta_idx + height) of block i. */
  predicate InBlock(rc: nat, p: nat, i: nat, x: nat)
    requires p > 0
  {
    i * Ceil(rc, p) <= x < i * Ceil(rc, p) + Height(rc, p, i)
  }

  /** Heights add up to the number of rows, and row x lies in block x / ceil(rc / p) and no other. */
  lemma Tiles(rc: nat, p: nat)
    requires p > 0
    ensures SumHeights(rc, p, p) == rc
    ensures rc > 0 ==> Ceil(rc, p) > 0
    ensures forall i: nat, x: nat {:trigger InBlock(rc, p, i, x)} |
              i < p && x < rc :: InBlock(rc, p, i, x) <==> i == x / Ceil(rc, p)
    ensures forall x: nat | x < rc :: x / Ceil(rc, p) < p
  {
    hide Before, InBlock;
    var c := Ceil(rc, p);
    CeilBounds(rc, p);
    SumIsBefore(rc, p, p);
    AllBefore(rc, p);
    if rc > 0 {
      forall i: nat, x: nat {:trigger InBlock(rc, p, i, x)} | i < p && x < rc
        ensures InBlock(rc, p, i, x) <==> i == x / c
      {
        RowInBlock(rc, p, i, x);
      }
      forall x: nat | x < rc ensures x / c < p {
        OwnerInRange(rc, p, x);
      }
    }
  }

  lemma AllBefore(rc: nat, p: nat)
    requires p > 0
    ensures Before(rc, p, p) == rc
    ensures rc > 0 ==> Ceil(rc, p) > 0
  {
    CeilBounds(rc, p);
  }

  lemma OwnerInRange(rc: nat, p: nat, x: nat)
    requires p > 0 && x < rc && Ceil(rc, p) > 0
    ensures x / Ceil(rc, p) < p
  {
    var c := Ceil(rc, p);
    CeilBounds(rc, p);
    Quotient(x / c, x, c);
    if x / c >= p {
      MulMonotone(p, x / c, c);
    }
  }

  lemma Quotient(i: nat, x: nat, c: nat)
    requires c > 0
    ensures i == x / c <==> i * c <= x < i * c + c
  {
    assert x == c * (x / c) + x % c;
    if i * c <= x < i * c + c {
      Division(x, c, i, x - i * c);
    }
  }

  lemma RowInBlock(rc: nat, p: nat, i: nat, x: nat)
    requires p > 0 && x < rc && Ceil(rc, p) > 0
    ensures InBlock(rc, p, i, x) <==> i == x / Ceil(rc, p)
  {
    HeightByBranch(rc, p, i);
    Quotient(i, x, Ceil(rc, p));
  }

  /** No block is empty exactly when the last one is not. */
  lemma NonEmptyIff(rc: nat, p: nat)
    requires p > 0 && rc > 0
    ensures (forall i: nat | i < p :: Height(rc, p, i) > 0) <==> (p - 1) * Ceil(rc, p) < rc
  {
    var c := Ceil(rc, p);
    CeilBounds(rc, p);
    HeightByBranch(rc, p, p - 1);
    if (p - 1) * c < rc {
      forall i: nat | i < p ensures Height(rc, p, i) > 0 {
        MulMonotone(i, p - 1, c);
        HeightByBranch(rc, p, i);
      }
    }
  }

  lemma SquareSuffices(rc: nat, p: nat)
    requires p > 0 && (p - 1) * (p - 1) < rc
    ensures (p - 1) * Ceil(rc, p) < rc
  {
    var c := Ceil(rc, p);
    CeilBounds(rc, p);
    MulNext(p - 1, c);
    if c <= p - 1 {
      MulMonotone(c, p - 1, p - 1);
      assert (p - 1) * c == c * (p - 1);
    }
  }

  /** With the two sizes of the program, no block is empty for up to 791 workers. */
  lemma BlocksNonEmpty(p: nat, i: nat)
    requires 1 <= p <= 791 && i < p
    ensures Height(N, p, i) > 0 && Height(M, p, i) > 0
  {
    MulMonotone(p - 1, 790, p - 1);
    MulMonotone(p - 1, 790, 790);
    SquareSuffices(N, p);
    SquareSuffices(M, p);
    NonEmptyIff(N, p);
    NonEmptyIff(M, p);
  }

  /** Bytes that rdma_sendTd stages for worker i of p (ps.cpp:304-308). */
  function FrameBytes(p: nat, i: nat): int
    requires p > 0
  {
    2 * STRUCT_SIZE + DOUBLE_SIZE * (Height(N, p, i) * K + Height(M, p, i) * K)
  }

  lemma CeilAtMost(rc: nat, p: nat, q: nat)
    requires p >= q > 0
    ensures Ceil(rc, p) <= Ceil(rc, q)
  {
    var c, d := Ceil(rc, p), Ceil(rc, q);
    CeilBounds(rc, p);
    CeilBounds(rc, q);
    assert p * c == c * p && p * d == d * p;
    if c > d {
      MulMonotone(d + 1, c, p);
      MulMonotone(q, p, d);
      MulNext(d, p);
    }
  }

  /** Every frame fits the registered buffer exactly from three workers on. */
  lemma FrameFitsIff(p: nat)
    requires p > 0
    ensures (forall i: nat | i < p :: FrameBytes(p, i) <= BUFFER_SIZE) <==> p >= 3
  {
    if p >= 3 {
      CeilAtMost(N, p, 3);
      CeilAtMost(M, p, 3);
      forall i: nat | i < p ensures FrameBytes(p, i) <= BUFFER_SIZE {
        HeightByBranch(N, p, i);
        HeightByBranch(M, p, i);
      }
    } else {
      HeightByBranch(N, p, 0);
      HeightByBranch(M, p, 0);
      assert FrameBytes(p, 0) > BUFFER_SIZE;
    }
  }

  /** The length survives the 32-bit immediate and is never the zero that means "no data". */
  lemma LengthSurvivesImmediate(p: nat, i: nat)
    requires p >= 3 && i < p
    ensures 0 < FrameBytes(p, i) < 0x1_0000_0000 && FrameBytes(p, i) % 0x1_0000_0000 == FrameBytes(p, i)
  {
    FrameFitsIff(p);
    HeightByBranch(N, p, i);
    HeightByBranch(M, p, i);
  }

  /** Every `int` the source computes on the way stays below 2^31. */
  lemma IntsDoNotOverflow(p: nat, i: nat)
    requires i < p <= CAP
    ensures N + p - 1 < 0x8000_0000 && i * Ceil(N, p) < 0x8000_0000 && i * Ceil(M, p) < 0x8000_0000
    ensures 0 <= Height(N, p, i) * K < 0x8000_0000 && 0 <= Height(M, p, i) * K < 0x8000_0000
  {
    CeilBounds(N, p);
    CeilBounds(M, p);
    CeilAtMost(N, p, 1);
    CeilAtMost(M, p, 1);
    MulMonotone(i, p, Ceil(N, p));
    MulMonotone(i, p, Ceil(M, p));
    HeightByBranch(N, p, i);
    HeightByBranch(M, p, i);
  }

  /** What partitionBlock leaves in entry i. */
  ghost predicate IsPart(b: Block, rc: nat, dim: nat, p: nat, i: nat)
    requires p > 0
  {
    && b.blockId == i && b.dataAge == 0 && b.staIdx == i * Ceil(rc, p)
    && b.height == Height(rc, p, i) && b.eleNum == b.height * dim == b.eles.Length
  }

  predicate HasRow(b: Block, x: int) {
    b.staIdx <= x < b.staIdx + b.height
  }

  /** By their start indices and heights, each row belongs to exactly one of the blocks. */
  lemma PartsTile(blocks: seq<Block>, rc: nat, dim: nat, p: nat)
    requires 0 < p <= |blocks| && forall i | 0 <= i < p :: IsPart(blocks[i], rc, dim, p, i)
    ensures rc > 0 ==> Ceil(rc, p) > 0
    ensures forall x: nat | x < rc :: x / Ceil(rc, p) < p
    ensures forall i: nat, x: nat {:trigger HasRow(blocks[i], x)} |
              i < p && x < rc :: HasRow(blocks[i], x) <==> i == x / Ceil(rc, p)
  {
    Tiles(rc, p);
    hide Ceil, Height;
    forall i: nat, x: nat {:trigger HasRow(blocks[i], x)} | i < p && x < rc
      ensures HasRow(blocks[i], x) <==> InBlock(rc, p, i, x)
    {
    }
  }

  /** The fields of one entry (ps.cpp:265-278). */
  method NewBlock(ghost rcNum: nat, dim: nat, ghost portionNum: nat, i: nat, height: nat, h: nat) returns (b: Block)
    requires portionNum > 0 && height == Ceil(rcNum, portionNum) && h == Height(rcNum, portionNum, i)
    ensures IsPart(b, rcNum, dim, portionNum, i) && fresh(b.eles)
  {
    hide Ceil, Height;
    var eleNum := h * dim;
    var eles := new real[eleNum];
    b := Block(i, 0, i * height, h, eleNum, eles);
  }

  method PartitionBlock(rcNum: nat, dim: nat, portionNum: nat, blocks: array<Block>)
    requires 0 < portionNum <= blocks.Length
    modifies blocks
    ensures forall i | 0 <= i < portionNum :: IsPart(blocks[i], rcNum, dim, portionNum, i) && fresh(blocks[i].eles)
    ensures forall i, j | 0 <= i < j < portionNum :: blocks[i].eles != blocks[j].eles
    ensures forall i | portionNum <= i < blocks.Length :: blocks[i] == old(blocks[i])
  {
    hide Ceil;
    var height := Ceil(rcNum, portionNum);
    var accHeight := 0;
    var i := 0;
    assert Before(rcNum, portionNum, 0) == 0;
    hide Before, IsPart;
    while i < portionNum
      invariant 0 <= i <= portionNum
      invariant accHeight == Before(rcNum, portionNum, i)
      invariant forall j | 0 <= j < i ::
                  IsPart(blocks[j], rcNum, dim, portionNum, j) && fresh(blocks[j].eles) && allocated(blocks[j].eles)
      invariant forall j, k | 0 <= j < k < i :: blocks[j].eles != blocks[k].eles
      invariant forall j | portionNum <= j < blocks.Length :: blocks[j] == old(blocks[j])
    {
      HeightByBranch(rcNum, portionNum, i);
      var h := if accHeight + height <= rcNum then height else rcNum - accHeight;
      var b := NewBlock(rcNum, dim, portionNum, i, height, h);
      blocks[i] := b;
      accHeight := accHeight + h;
      i := i + 1;
    }
  }
}
