/**
 Memory as the round protocol sees it. A cell is one `int` field of `struct Block` or one
 `double` of its element array; a frame is the byte image of a P block followed by a Q block.
 The `isP` field and the raw `eles` pointer of the struct are not cells.
 */
module Cells {

  datatype Cell = Int(i: int) | Dbl(d: real)

  // Offsets of the fields inside a block header (mf_common.h:15-19).
  const ID: nat := 0
  const AGE: nat := 1
  const STA: nat := 2
  const HEIGHT: nat := 3
  const ELE_NUM: nat := 4
  const HEADER: nat := 5

  // Reads and writes are total: outside the buffer a read gives a zero and a write is dropped.
  // Reachable states never rely on this (`Safety.StagingInBounds`, `Safety.UnpackingInBounds`).
  function Get(s: seq<Cell>, k: nat): Cell {
    if k < |s| then s[k] else Int(0)
  }

  function Put(s: seq<Cell>, k: nat, c: Cell): seq<Cell> {
    if k < |s| then s[k := c] else s
  }

  /** An `int` field read through the struct pointer; a cell that holds a double reads as 0. */
  function IntAt(s: seq<Cell>, k: nat): int {
    match Get(s, k)
    case Int(i) => i
    case Dbl(_) => 0
  }

  function NatAt(s: seq<Cell>, k: nat): nat {
    if IntAt(s, k) < 0 then 0 else IntAt(s, k)
  }

  /** Where the Q header starts: recovered from the P header alone. */
  function QBase(s: seq<Cell>): nat {
    HEADER + NatAt(s, ELE_NUM)
  }

  /** Length of the frame at the front of a buffer, recovered from its two headers. */
  function FrameLen(s: seq<Cell>): nat {
    QBase(s) + HEADER + NatAt(s, QBase(s) + ELE_NUM)
  }

  /** The block a cell of the frame belongs to: the id of the header it follows. */
  function OwnerOf(s: seq<Cell>, k: nat): int {
    if k < QBase(s) then IntAt(s, ID) else IntAt(s, QBase(s) + ID)
  }

  /** Both `data_age` fields set to `age`. */
  function Stamp(s: seq<Cell>, age: int): seq<Cell> {
    Put(Put(s, AGE, Int(age)), QBase(s) + AGE, Int(age))
  }

  ghost predicate IsFrame(s: seq<Cell>) {
    && FrameLen(s) == |s|
    && s[AGE].Int? && s[QBase(s) + AGE].Int?
  }

  /** `x` has the size and the header fields of frame `y`; only ages and elements may differ. */
  ghost predicate SameShape(x: seq<Cell>, y: seq<Cell>)
    requires IsFrame(y)
  {
    var q := QBase(y);
    && |x| == |y|
    && x[ID] == y[ID] && x[q + ID] == y[q + ID]
    && x[STA] == y[STA] && x[q + STA] == y[q + STA]
    && x[HEIGHT] == y[HEIGHT] && x[q + HEIGHT] == y[q + HEIGHT]
    && x[ELE_NUM] == y[ELE_NUM] && x[q + ELE_NUM] == y[q + ELE_NUM]
    && x[AGE].Int? && x[q + AGE].Int?
  }

  ghost predicate SameAges(x: seq<Cell>, y: seq<Cell>)
    requires IsFrame(y) && SameShape(x, y)
  {
    x[AGE] == y[AGE] && x[QBase(y) + AGE] == y[QBase(y) + AGE]
  }

  lemma ShapeIsFrame(x: seq<Cell>, y: seq<Cell>)
    requires IsFrame(y) && SameShape(x, y)
    ensures IsFrame(x) && FrameLen(x) == |y| && QBase(x) == QBase(y)
    ensures IntAt(x, ID) == IntAt(y, ID) && IntAt(x, QBase(x) + ID) == IntAt(y, QBase(y) + ID)
  {
  }

  lemma StampKeepsShape(x: seq<Cell>, y: seq<Cell>, age: int)
    requires IsFrame(y) && SameShape(x, y)
    ensures SameShape(Put(x, AGE, Int(age)), y)
    ensures SameShape(Stamp(x, age), y)
    ensures Stamp(x, age)[AGE] == Int(age) && Stamp(x, age)[QBase(y) + AGE] == Int(age)
  {
  }

  /** A buffer that starts with frame `x` is measured and addressed like `x`, whatever follows. */
  lemma PrefixReadsLikeFrame(b: seq<Cell>, x: seq<Cell>)
    requires IsFrame(x) && x <= b
    ensures FrameLen(b) == |x| && QBase(b) == QBase(x)
    ensures IntAt(b, ID) == IntAt(x, ID) && IntAt(b, QBase(b) + ID) == IntAt(x, QBase(x) + ID)
    ensures forall k | 0 <= k < |x| :: Get(b, k) == x[k]
  {
  }
}
