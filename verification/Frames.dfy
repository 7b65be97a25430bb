/**
 `struct Block` and the frame that carries a P block and a Q block: P header, P elements, Q header,
 Q elements (ps.cpp:304-317, ps.cpp:356-384, worker.cu:315-325, worker.cu:360-382).
 */
module Frames {
  import opened Cells

  /** What a block says, apart from where its elements are stored. */
  datatype BlockVal = BlockVal(id: int, age: int, sta: int, height: int, eles: seq<real>)

  /** `struct Block`, stored by value in the global arrays. */
  datatype Block = Block(blockId: int, dataAge: int, staIdx: int, height: int, eleNum: int, eles: array<real>)

  ghost predicate Owned(b: Block) {
    b.eleNum == b.eles.Length
  }

  ghost function Val(b: Block): BlockVal
    reads b.eles
  {
    BlockVal(b.blockId, b.dataAge, b.staIdx, b.height, b.eles[..])
  }

  // ---------- Image and parse ----------

  function HeaderCells(b: BlockVal): (r: seq<Cell>)
    ensures |r| == HEADER
  {
    [Int(b.id), Int(b.age), Int(b.sta), Int(b.height), Int(|b.eles|)]
  }

  function ElementCells(eles: seq<real>): (r: seq<Cell>)
    ensures |r| == |eles|
  {
    seq(|eles|, k requires 0 <= k < |eles| => Dbl(eles[k]))
  }

  function Image(b: BlockVal): (r: seq<Cell>)
    ensures |r| == HEADER + |b.eles|
  {
    HeaderCells(b) + ElementCells(b.eles)
  }

  function PairImage(p: BlockVal, q: BlockVal): (r: seq<Cell>)
    ensures |r| == 2 * HEADER + |p.eles| + |q.eles|
  {
    Image(p) + Image(q)
  }

  /** A `double` read through a pointer; a cell that holds an int reads as 0. */
  function DblAt(s: seq<Cell>, k: nat): real {
    match Get(s, k)
    case Int(_) => 0.0
    case Dbl(d) => d
  }

  function Elements(s: seq<Cell>, base: nat): (r: seq<real>)
    ensures |r| == NatAt(s, base + ELE_NUM)
    ensures forall k | 0 <= k < |r| :: r[k] == DblAt(s, base + HEADER + k)
  {
    seq(NatAt(s, base + ELE_NUM), k requires k >= 0 => DblAt(s, base + HEADER + k))
  }

  function ParseBlock(s: seq<Cell>, base: nat): BlockVal {
    BlockVal(IntAt(s, base + ID), IntAt(s, base + AGE), IntAt(s, base + STA), IntAt(s, base + HEIGHT),
             Elements(s, base))
  }

  /** The receiver's view: the Q block is found through the P header alone. */
  function ParsePair(s: seq<Cell>): (BlockVal, BlockVal) {
    (ParseBlock(s, 0), ParseBlock(s, QBase(s)))
  }

  lemma ParseImage(pre: seq<Cell>, b: BlockVal, post: seq<Cell>)
    ensures ParseBlock(pre + Image(b) + post, |pre|) == b
    ensures NatAt(pre + Image(b) + post, |pre| + ELE_NUM) == |b.eles|
  {
    var s, base := pre + Image(b) + post, |pre|;
    forall k | 0 <= k < |Image(b)| ensures s[base + k] == Image(b)[k] {
    }
    assert s[base + ID] == Int(b.id) && s[base + AGE] == Int(b.age) && s[base + STA] == Int(b.sta);
    assert s[base + HEIGHT] == Int(b.height) && s[base + ELE_NUM] == Int(|b.eles|);
    forall k | 0 <= k < |b.eles| ensures s[base + HEADER + k] == Dbl(b.eles[k]) {
      assert s[base + (HEADER + k)] == Image(b)[HEADER + k];
    }
    assert Elements(s, base) == b.eles;
  }

  /** Unpacking what was packed gives back both blocks, whatever stale cells follow the frame. */
  lemma FrameRoundTrip(p: BlockVal, q: BlockVal, stale: seq<Cell>)
    ensures ParsePair(PairImage(p, q) + stale) == (p, q)
    ensures FrameLen(PairImage(p, q) + stale) == |PairImage(p, q)|
    ensures QBase(PairImage(p, q) + stale) == |Image(p)|
  {
    hide Image, ParseBlock;
    var s := PairImage(p, q) + stale;
    assert s == [] + Image(p) + (Image(q) + stale);
    assert s == Image(p) + Image(q) + stale;
    ParseImage([], p, Image(q) + stale);
    ParseImage(Image(p), q, stale);
  }

  /** Header cells are ints and element cells are doubles. */
  ghost predicate WellTyped(s: seq<Cell>) {
    && IsFrame(s)
    && (forall k | 0 <= k < HEADER :: s[k].Int?)
    && (forall k | QBase(s) <= k < QBase(s) + HEADER :: s[k].Int?)
    && s[ELE_NUM].i >= 0 && s[QBase(s) + ELE_NUM].i >= 0
    && (forall k | HEADER <= k < QBase(s) :: s[k].Dbl?)
    && (forall k | QBase(s) + HEADER <= k < |s| :: s[k].Dbl?)
  }

  /** The other way round: a well-typed frame is the image of the blocks it parses to. */
  lemma ParseRoundTrip(s: seq<Cell>)
    requires WellTyped(s)
    ensures PairImage(ParsePair(s).0, ParsePair(s).1) == s
  {
    var (p, q) := ParsePair(s);
    var n := QBase(s);
    forall k | 0 <= k < n ensures Image(p)[k] == s[k] {
      assert k >= HEADER ==> Image(p)[k] == Dbl(p.eles[k - HEADER]);
    }
    forall k | 0 <= k < |s| - n ensures Image(q)[k] == s[n + k] {
      assert s[n + k] == Get(s, n + k);
      assert k >= HEADER ==> Image(q)[k] == Dbl(q.eles[k - HEADER]);
    }
  }

  lemma ImageIsWellTyped(p: BlockVal, q: BlockVal)
    ensures WellTyped(PairImage(p, q))
  {
    var s := PairImage(p, q);
    assert s + [] == s;
    FrameRoundTrip(p, q, []);
    assert forall k | 0 <= k < |Image(q)| :: s[|Image(p)| + k] == Image(q)[k];
  }

  // ---------- Packing ----------

  /** What `memcpy(buf + base, x, |x|)` makes of a buffer. */
  function Splice(s: seq<Cell>, base: nat, x: seq<Cell>): (r: seq<Cell>)
    requires base + |x| <= |s|
    ensures |r| == |s|
  {
    s[..base] + x + s[base + |x|..]
  }

  lemma SpliceAtFront(s: seq<Cell>, x: seq<Cell>)
    requires |x| <= |s|
    ensures Splice(s, 0, x) == x + s[|x|..]
  {
  }

  lemma SpliceTwice(s: seq<Cell>, base: nat, x: seq<Cell>, y: seq<Cell>)
    requires base + |x| + |y| <= |s|
    ensures Splice(Splice(s, base, x), base + |x|, y) == Splice(s, base, x + y)
  {
  }

  /** `memcpy` of a block header. */
  method PutHeader(buf: array<Cell>, base: nat, b: Block)
    requires Owned(b) && base + HEADER <= buf.Length
    modifies buf
    ensures buf[..] == Splice(old(buf[..]), base, HeaderCells(Val(b)))
  {
    buf[base + ID] := Int(b.blockId);
    buf[base + AGE] := Int(b.dataAge);
    buf[base + STA] := Int(b.staIdx);
    buf[base + HEIGHT] := Int(b.height);
    buf[base + ELE_NUM] := Int(b.eleNum);
  }

  /** `memcpy` of an element array into the buffer. */
  method PutElements(buf: array<Cell>, base: nat, eles: array<real>)
    requires base + eles.Length <= buf.Length
    modifies buf
    ensures buf[..] == Splice(old(buf[..]), base, ElementCells(eles[..]))
  {
    var k := 0;
    while k < eles.Length
      invariant 0 <= k <= eles.Length
      invariant forall x | 0 <= x < buf.Length ::
                  buf[x] == if base <= x < base + k then Dbl(eles[x - base]) else old(buf[x])
    {
      buf[base + k] := Dbl(eles[k]);
      k := k + 1;
    }
  }

  /** One block into the buffer, at `base`. */
  method PackBlock(buf: array<Cell>, base: nat, b: Block)
    requires Owned(b) && base + HEADER + b.eles.Length <= buf.Length
    modifies buf
    ensures buf[..] == Splice(old(buf[..]), base, Image(Val(b)))
  {
    hide Splice;
    PutHeader(buf, base, b);
    PutElements(buf, base + HEADER, b.eles);
    SpliceTwice(old(buf[..]), base, HeaderCells(Val(b)), ElementCells(b.eles[..]));
  }

  /**
   The body of rdma_sendTd on the worker, and of the PS once it has stamped the ages: fill the send
   buffer and return `total_len`.
   */
  method PackPair(buf: array<Cell>, p: Block, q: Block) returns (totalLen: nat)
    requires Owned(p) && Owned(q) && 2 * HEADER + p.eles.Length + q.eles.Length <= buf.Length
    modifies buf
    ensures totalLen == |PairImage(Val(p), Val(q))|
    ensures buf[..] == PairImage(Val(p), Val(q)) + old(buf[totalLen..])
    ensures ParsePair(buf[..]) == (Val(p), Val(q)) && FrameLen(buf[..]) == totalLen
  {
    hide Image, ParsePair, FrameLen, Splice;
    var pTotal := HEADER + p.eles.Length;
    totalLen := pTotal + HEADER + q.eles.Length;
    ghost var before := buf[..];
    PackBlock(buf, 0, p);
    PackBlock(buf, pTotal, q);
    SpliceTwice(before, 0, Image(Val(p)), Image(Val(q)));
    SpliceAtFront(before, PairImage(Val(p), Val(q)));
    FrameRoundTrip(Val(p), Val(q), before[totalLen..]);
  }

  // ---------- Unpacking ----------

  /** `memcpy` of elements out of the buffer. */
  method GetElements(buf: array<Cell>, base: nat, eles: array<real>)
    requires base + eles.Length <= buf.Length
    modifies eles
    ensures forall k | 0 <= k < eles.Length :: eles[k] == DblAt(buf[..], base + k)
  {
    var k := 0;
    while k < eles.Length
      invariant 0 <= k <= eles.Length
      invariant forall x | 0 <= x < k :: eles[x] == DblAt(buf[..], base + x)
    {
      eles[k] := match buf[base + k] case Int(_) => 0.0 case Dbl(d) => d;
      k := k + 1;
    }
  }

  method IntField(buf: array<Cell>, k: nat) returns (i: int)
    requires k < buf.Length
    ensures i == IntAt(buf[..], k)
  {
    i := match buf[k] case Int(v) => v case Dbl(_) => 0;
  }

  /** The worker's way (worker.cu:362-382): new memory for the elements of each block. */
  method UnpackBlockFresh(buf: array<Cell>, base: nat) returns (b: Block)
    requires base + HEADER <= buf.Length && base + HEADER + NatAt(buf[..], base + ELE_NUM) <= buf.Length
    requires IntAt(buf[..], base + ELE_NUM) >= 0
    ensures Owned(b) && fresh(b.eles) && Val(b) == ParseBlock(buf[..], base)
    ensures b.eles.Length == NatAt(buf[..], base + ELE_NUM)
  {
    var id := IntField(buf, base + ID);
    var age := IntField(buf, base + AGE);
    var sta := IntField(buf, base + STA);
    var height := IntField(buf, base + HEIGHT);
    var eleNum := IntField(buf, base + ELE_NUM);
    var eles := new real[eleNum];
    GetElements(buf, base + HEADER, eles);
    b := Block(id, age, sta, height, eleNum, eles);
    assert eles[..] == Elements(buf[..], base);
  }

  method UnpackPairFresh(buf: array<Cell>) returns (p: Block, q: Block)
    requires FrameLen(buf[..]) <= buf.Length
    requires IntAt(buf[..], ELE_NUM) >= 0 && IntAt(buf[..], QBase(buf[..]) + ELE_NUM) >= 0
    ensures Owned(p) && Owned(q) && fresh(p.eles) && fresh(q.eles) && p.eles != q.eles
    ensures (Val(p), Val(q)) == ParsePair(buf[..])
  {
    p := UnpackBlockFresh(buf, 0);
    q := UnpackBlockFresh(buf, HEADER + p.eles.Length);
  }

  /**
   The PS's way (ps.cpp:356-370): the block named by the header keeps its element array, which the
   copy fills exactly; every other block and array keeps its contents.
   */
  method UnpackBlockInPlace(buf: array<Cell>, base: nat, blocks: array<Block>)
    requires base + HEADER <= buf.Length && base + HEADER + NatAt(buf[..], base + ELE_NUM) <= buf.Length
    requires 0 <= IntAt(buf[..], base + ID) < blocks.Length
    requires IntAt(buf[..], base + ELE_NUM) == blocks[IntAt(buf[..], base + ID)].eles.Length
    modifies blocks, blocks[IntAt(buf[..], base + ID)].eles
    ensures var idx := IntAt(old(buf[..]), base + ID);
            && blocks[idx].eles == old(blocks[idx].eles) && Owned(blocks[idx])
            && Val(blocks[idx]) == ParseBlock(old(buf[..]), base)
            && forall i | 0 <= i < blocks.Length && i != idx :: blocks[i] == old(blocks[i])
  {
    var idx := IntField(buf, base + ID);
    var sta := IntField(buf, base + STA);
    var height := IntField(buf, base + HEIGHT);
    var eleNum := IntField(buf, base + ELE_NUM);
    var age := IntField(buf, base + AGE);
    var eles := blocks[idx].eles;
    GetElements(buf, base + HEADER, eles);
    blocks[idx] := Block(idx, age, sta, height, eleNum, eles);
    assert eles[..] == Elements(buf[..], base);
  }
}
