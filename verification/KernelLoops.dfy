/**
 The kernel and its driver as the loops they are written as, and the result about launches: every
 complete interleaving of the threads of a launch leaves what running them one after another leaves.
 */
module KernelLoops {
  import opened Arith
  import opened Kernel
  import opened Vectors

  // ---------- The loop nest of one thread ----------

  /** `err` after the first k products (cuda_kernel_mf.cu:13-19). */
  function ErrAfter(pb: Problem, i: nat, j: nat, k: nat, m: Mem): real {
    if k == 0 then Get(pb.rating, At(i, pb.colHeight, j))
    else ErrAfter(pb, i, j, k - 1, m) - Get(m.row, At(i, pb.dim, k - 1)) * Get(m.col, At(j, pb.dim, k - 1))
  }

  /** One pass of the update loop (cuda_kernel_mf.cu:23-25): the column element sees the new row element. */
  function UpdElem(pb: Problem, i: nat, j: nat, k: nat, err: real, m: Mem): (m': Mem)
    ensures |m'.row| == |m.row| && |m'.col| == |m.col|
  {
    var x, y := At(i, pb.dim, k), At(j, pb.dim, k);
    var a, b := Get(m.row, x), Get(m.col, y);
    var row := Put(m.row, x, Nudge(err, a, b));
    Mem(row, Put(m.col, y, Nudge(err, b, Get(row, x))))
  }

  function Updated(pb: Problem, i: nat, j: nat, k: nat, err: real, m: Mem): (m': Mem)
    ensures |m'.row| == |m.row| && |m'.col| == |m.col|
  {
    if k == 0 then m else UpdElem(pb, i, j, k - 1, err, Updated(pb, i, j, k - 1, err, m))
  }

  /** One entry of the rating matrix; zero means "no rating". */
  function Entry(pb: Problem, i: nat, j: nat, m: Mem): (m': Mem)
    ensures |m'.row| == |m.row| && |m'.col| == |m.col|
  {
    if Get(pb.rating, At(i, pb.colHeight, j)) == 0.0 then m
    else Updated(pb, i, j, pb.dim, ErrAfter(pb, i, j, pb.dim, m), m)
  }

  function ColLoop(pb: Problem, i: nat, j: nat, m: Mem): (m': Mem)
    requires pb.wn > 0
    ensures |m'.row| == |m.row| && |m'.col| == |m.col|
    decreases if j < pb.colHeight then pb.colHeight - j else 0
  {
    if j < pb.colHeight then ColLoop(pb, i, j + pb.wn, Entry(pb, i, j, m)) else m
  }

  function RowLoop(pb: Problem, cx: nat, i: nat, m: Mem): (m': Mem)
    requires pb.wn > 0
    ensures |m'.row| == |m.row| && |m'.col| == |m.col|
    decreases if i < pb.rowHeight then pb.rowHeight - i else 0
  {
    if i < pb.rowHeight then RowLoop(pb, cx, i + pb.wn, ColLoop(pb, i, cx, m)) else m
  }

  /** The first t threads of a launch, one after another. */
  function Serial(pb: Problem, rows: seq<nat>, cols: seq<nat>, t: nat, m: Mem): (m': Mem)
    requires Ids(pb, rows, cols) && t <= pb.wn
    ensures |m'.row| == |m.row| && |m'.col| == |m.col|
  {
    if t == 0 then m else RowLoop(pb, cols[t - 1], rows[t - 1], Serial(pb, rows, cols, t - 1, m))
  }

  // ---------- What an entry does, element by element ----------

  /** Row number i of an element array. */
  function Vec(e: seq<real>, i: nat, width: nat): (r: seq<real>)
    ensures |r| == width
  {
    seq(width, k requires k >= 0 => Get(e, At(i, width, k)))
  }

  /** The accumulated error is the rating minus the product of the two rows. */
  lemma ErrIsRatingMinusDot(pb: Problem, i: nat, j: nat, m: Mem)
    ensures ErrAfter(pb, i, j, pb.dim, m) ==
            Get(pb.rating, At(i, pb.colHeight, j)) - Dot(Vec(m.row, i, pb.dim), Vec(m.col, j, pb.dim))
  {
    var a, b := Vec(m.row, i, pb.dim), Vec(m.col, j, pb.dim);
    ErrIsPrefixDot(pb, i, j, pb.dim, m);
    assert a[..pb.dim] == a && b[..pb.dim] == b;
  }

  lemma {:induction false} ErrIsPrefixDot(pb: Problem, i: nat, j: nat, k: nat, m: Mem)
    requires k <= pb.dim
    ensures ErrAfter(pb, i, j, k, m) ==
            Get(pb.rating, At(i, pb.colHeight, j)) - Dot(Vec(m.row, i, pb.dim)[..k], Vec(m.col, j, pb.dim)[..k])
  {
    if k > 0 {
      ErrIsPrefixDot(pb, i, j, k - 1, m);
      var a, b := Vec(m.row, i, pb.dim), Vec(m.col, j, pb.dim);
      assert a[..k][..k - 1] == a[..k - 1] && b[..k][..k - 1] == b[..k - 1];
    }
  }

  /**
   The k elements of `row` from x on and those of `col` from y on have been moved, with the source's
   yita and theta of 0.2, each column element by the new row element; all others are as they were.
   */
  ghost predicate ElementsMoved(row: seq<real>, col: seq<real>, x: nat, y: nat, k: nat, err: real,
                                row': seq<real>, col': seq<real>)
    requires x + k <= |row| && y + k <= |col|
  {
    && |row'| == |row| && |col'| == |col|
    && (forall a | 0 <= a < |row| ::
          row'[a] == if x <= a < x + k then 0.96 * row[a] + 0.2 * (err * col[y + (a - x)]) else row[a])
    && (forall b | 0 <= b < |col| ::
          col'[b] == if y <= b < y + k then 0.96 * col[b] + 0.2 * (err * row'[x + (b - y)]) else col[b])
  }

  lemma {:induction false} UpdatedMovesElements(pb: Problem, i: nat, j: nat, k: nat, err: real, m: Mem)
    requires k <= pb.dim && At(i, pb.dim, pb.dim) <= |m.row| && At(j, pb.dim, pb.dim) <= |m.col|
    ensures var m' := Updated(pb, i, j, k, err, m);
            ElementsMoved(m.row, m.col, At(i, pb.dim, 0), At(j, pb.dim, 0), k, err, m'.row, m'.col)
  {
    hide UpdElem, ElementsMoved;
    if k == 0 {
      NothingMoved(m.row, m.col, At(i, pb.dim, 0), At(j, pb.dim, 0), err);
    } else {
      var prev := Updated(pb, i, j, k - 1, err, m);
      UpdatedMovesElements(pb, i, j, k - 1, err, m);
      OneMoreElement(m.row, m.col, At(i, pb.dim, 0), At(j, pb.dim, 0), k - 1, err, prev);
      UpdElemInRange(pb, i, j, k - 1, err, prev);
      hide Updated, Nudge;
    }
  }

  lemma NothingMoved(row: seq<real>, col: seq<real>, x: nat, y: nat, err: real)
    requires x <= |row| && y <= |col|
    ensures ElementsMoved(row, col, x, y, 0, err, row, col)
  {
  }

  lemma UpdElemInRange(pb: Problem, i: nat, j: nat, k: nat, err: real, m: Mem)
    requires At(i, pb.dim, k) < |m.row| && At(j, pb.dim, k) < |m.col|
    ensures var x, y := At(i, pb.dim, 0) + k, At(j, pb.dim, 0) + k;
            var row' := m.row[x := Nudge(err, m.row[x], m.col[y])];
            UpdElem(pb, i, j, k, err, m) == Mem(row', m.col[y := Nudge(err, m.col[y], row'[x])])
  {
    hide Nudge;
  }

  lemma OneMoreElement(row: seq<real>, col: seq<real>, x: nat, y: nat, k: nat, err: real, m: Mem)
    requires x + k < |row| && y + k < |col| && ElementsMoved(row, col, x, y, k, err, m.row, m.col)
    ensures var row' := m.row[x + k := Nudge(err, m.row[x + k], m.col[y + k])];
            var col' := m.col[y + k := Nudge(err, m.col[y + k], row'[x + k])];
            ElementsMoved(row, col, x, y, k + 1, err, row', col')
  {
    hide Nudge;
    NudgeIs(err, row[x + k], col[y + k]);
    var v := Nudge(err, row[x + k], col[y + k]);
    NudgeIs(err, col[y + k], v);
  }

  /** An entry without a rating changes nothing; one with a rating moves its two rows by its error. */
  lemma EntryMovesRows(pb: Problem, i: nat, j: nat, m: Mem)
    requires Fits(pb, m) && i < pb.rowHeight && j < pb.colHeight
    ensures At(i, pb.colHeight, j) < |pb.rating|
    ensures At(i, pb.dim, pb.dim) <= |m.row| && At(j, pb.dim, pb.dim) <= |m.col|
    ensures var r, m' := pb.rating[At(i, pb.colHeight, j)], Entry(pb, i, j, m);
            if r == 0.0 then m' == m
            else ElementsMoved(m.row, m.col, At(i, pb.dim, 0), At(j, pb.dim, 0), pb.dim,
                               r - Dot(Vec(m.row, i, pb.dim), Vec(m.col, j, pb.dim)), m'.row, m'.col)
  {
    Sizes(pb, m, i, j, 0);
    ErrIsRatingMinusDot(pb, i, j, m);
    UpdatedMovesElements(pb, i, j, pb.dim, ErrAfter(pb, i, j, pb.dim, m), m);
    hide Updated, ErrAfter, ElementsMoved, Dot, Vec, At;
  }

  lemma Sizes(pb: Problem, m: Mem, i: nat, j: nat, k: nat)
    requires Fits(pb, m) && i < pb.rowHeight && j < pb.colHeight
    ensures At(i, pb.colHeight, j) < |pb.rating|
    ensures At(i, pb.dim, pb.dim) <= |m.row| && At(j, pb.dim, pb.dim) <= |m.col|
    ensures k < pb.dim ==> At(i, pb.dim, k) < |m.row| && At(j, pb.dim, k) < |m.col|
  {
    AtInRange(i, pb.rowHeight, pb.colHeight, j);
    MulMonotone(i + 1, pb.rowHeight, pb.dim);
    MulMonotone(j + 1, pb.colHeight, pb.dim);
    MulNext(i, pb.dim);
    MulNext(j, pb.dim);
    if k < pb.dim {
      AtInRange(i, pb.rowHeight, pb.dim, k);
      AtInRange(j, pb.colHeight, pb.dim, k);
    }
  }

  // ---------- Which entries a thread works on ----------

  /** The entries of a list, one after another. */
  function Entries(pb: Problem, list: seq<(nat, nat)>, m: Mem): Mem {
    if list == [] then m else Entries(pb, list[1..], Entry(pb, list[0].0, list[0].1, m))
  }

  /** Row by row, each row from left to right, nothing twice. */
  ghost predicate RowMajor(list: seq<(nat, nat)>) {
    forall a, b | 0 <= a < b < |list| ::
      list[a].0 < list[b].0 || (list[a].0 == list[b].0 && list[a].1 < list[b].1)
  }

  /** Row i belongs to residue rx and column j to residue cx. */
  predicate OwnEntry(pb: Problem, rx: nat, cx: nat, e: (nat, nat))
    requires pb.wn > 0
  {
    e.0 < pb.rowHeight && e.1 < pb.colHeight && e.0 % pb.wn == rx && e.1 % pb.wn == cx
  }

  lemma {:induction false} EntriesJoin(pb: Problem, a: seq<(nat, nat)>, b: seq<(nat, nat)>, m: Mem)
    ensures Entries(pb, a + b, m) == Entries(pb, b, Entries(pb, a, m))
  {
    hide Entry;
    if a == [] {
      assert a + b == b;
    } else {
      assert (a + b)[1..] == a[1..] + b;
      EntriesJoin(pb, a[1..], b, Entry(pb, a[0].0, a[0].1, m));
    }
  }

  /** Two numbers of the same class are at least wn apart. */
  lemma NextInClass(i: nat, x: nat, wn: nat)
    requires wn > 0 && i < x && i % wn == x % wn
    ensures i + wn <= x
  {
    QuotientsApart(i, x, wn, i / wn, x / wn, i % wn);
  }

  lemma QuotientsApart(i: nat, x: nat, wn: nat, q: nat, p: nat, r: nat)
    requires i < x && i == q * wn + r && x == p * wn + r
    ensures i + wn <= x
  {
    if p <= q {
      MulMonotone(p, q, wn);
    } else {
      MulMonotone(q + 1, p, wn);
      MulNext(q, wn);
    }
  }

  /** The members of a class from i on are i and those from i + wn on. */
  lemma ClassFrom(i: nat, x: nat, wn: nat)
    requires wn > 0
    ensures i <= x && x % wn == i % wn <==> x == i || (i + wn <= x && x % wn == (i + wn) % wn)
  {
    NextClass(i, wn);
    if i < x && x % wn == i % wn {
      NextInClass(i, x, wn);
    }
  }

  lemma LeastOfClass(c: nat, x: nat, wn: nat)
    requires c < wn
    ensures x % wn == c <==> c <= x && x % wn == c % wn
  {
    Division(c, wn, 0, c);
    assert x == wn * (x / wn) + x % wn;
  }

  /** The entries of row i in the column class of j, from j on. */
  ghost predicate ListsRow(pb: Problem, i: nat, j: nat, list: seq<(nat, nat)>)
    requires pb.wn > 0
  {
    forall e: (nat, nat) :: e in list <==> e.0 == i && j <= e.1 < pb.colHeight && e.1 % pb.wn == j % pb.wn
  }

  lemma RowListExtends(pb: Problem, i: nat, j: nat, rest: seq<(nat, nat)>)
    requires pb.wn > 0 && j < pb.colHeight && ListsRow(pb, i, j + pb.wn, rest) && RowMajor(rest)
    ensures ListsRow(pb, i, j, [(i, j)] + rest) && RowMajor([(i, j)] + rest)
  {
    var list := [(i, j)] + rest;
    forall e: (nat, nat) ensures e in list <==> e.0 == i && j <= e.1 < pb.colHeight && e.1 % pb.wn == j % pb.wn {
      ClassFrom(j, e.1, pb.wn);
      assert e in list <==> e == (i, j) || e in rest;
    }
    forall b | 0 < b < |list| ensures list[b].0 == i && j < list[b].1 {
      assert list[b] in rest;
    }
  }

  lemma {:induction false} ColLoopVisits(pb: Problem, i: nat, j: nat, m: Mem) returns (list: seq<(nat, nat)>)
    requires pb.wn > 0
    ensures ColLoop(pb, i, j, m) == Entries(pb, list, m) && RowMajor(list) && ListsRow(pb, i, j, list)
    decreases if j < pb.colHeight then pb.colHeight - j else 0
  {
    hide Entry;
    if j < pb.colHeight {
      hide RowMajor, ListsRow;
      var rest := ColLoopVisits(pb, i, j + pb.wn, Entry(pb, i, j, m));
      RowListExtends(pb, i, j, rest);
      list := [(i, j)] + rest;
      assert list[1..] == rest;
    } else {
      list := [];
    }
  }

  lemma RowMajorJoins(a: seq<(nat, nat)>, b: seq<(nat, nat)>, i: nat)
    requires RowMajor(a) && RowMajor(b)
    requires (forall e: (nat, nat) | e in a :: e.0 == i) && (forall e: (nat, nat) | e in b :: i < e.0)
    ensures RowMajor(a + b)
  {
    forall j, k | 0 <= j < |a| && 0 <= k < |b| ensures a[j].0 < b[k].0 {
      assert a[j] in a && b[k] in b;
    }
  }

  /** From row i on: the entries of row i and those of the rows from i + wn on. */
  lemma OwnEntriesSplit(pb: Problem, i: nat, cx: nat, e: (nat, nat))
    requires pb.wn > 0 && i < pb.rowHeight && cx < pb.wn
    ensures i <= e.0 && OwnEntry(pb, i % pb.wn, cx, e) <==>
            || (e.0 == i && cx <= e.1 < pb.colHeight && e.1 % pb.wn == cx % pb.wn)
            || (i + pb.wn <= e.0 && OwnEntry(pb, (i + pb.wn) % pb.wn, cx, e))
  {
    ClassFrom(i, e.0, pb.wn);
    LeastOfClass(cx, e.1, pb.wn);
  }

  ghost predicate ListsFrom(pb: Problem, cx: nat, i: nat, list: seq<(nat, nat)>)
    requires pb.wn > 0
  {
    forall e: (nat, nat) :: e in list <==> i <= e.0 && OwnEntry(pb, i % pb.wn, cx, e)
  }

  lemma ListsJoin(pb: Problem, cx: nat, i: nat, cols: seq<(nat, nat)>, rest: seq<(nat, nat)>)
    requires pb.wn > 0 && cx < pb.wn && i < pb.rowHeight && ListsFrom(pb, cx, i + pb.wn, rest)
    requires ListsRow(pb, i, cx, cols)
    ensures ListsFrom(pb, cx, i, cols + rest)
  {
    hide OwnEntry;
    forall e: (nat, nat) ensures e in cols + rest <==> i <= e.0 && OwnEntry(pb, i % pb.wn, cx, e) {
      OwnEntriesSplit(pb, i, cx, e);
      assert e in cols + rest <==> e in cols || e in rest;
    }
  }

  lemma {:induction false} RowLoopVisits(pb: Problem, cx: nat, i: nat, m: Mem) returns (list: seq<(nat, nat)>)
    requires pb.wn > 0 && cx < pb.wn
    ensures RowLoop(pb, cx, i, m) == Entries(pb, list, m) && RowMajor(list) && ListsFrom(pb, cx, i, list)
    decreases if i < pb.rowHeight then pb.rowHeight - i else 0
  {
    hide ColLoop, Entry;
    if i < pb.rowHeight {
      hide RowMajor;
      var cols := ColLoopVisits(pb, i, cx, m);
      var rest := RowLoopVisits(pb, cx, i + pb.wn, ColLoop(pb, i, cx, m));
      list := cols + rest;
      EntriesJoin(pb, cols, rest, m);
      RowMajorJoins(cols, rest, i);
      ListsJoin(pb, cx, i, cols, rest);
      hide ListsFrom, Entries, RowLoop;
    } else {
      list := [];
    }
  }

  /**
   A thread takes all entries whose row is in its row class and whose column is in its column class,
   each of them once, row by row, and no others.
   */
  lemma ThreadVisitsOwnEntries(pb: Problem, rx: nat, cx: nat, m: Mem) returns (list: seq<(nat, nat)>)
    requires pb.wn > 0 && rx < pb.wn && cx < pb.wn
    ensures RowLoop(pb, cx, rx, m) == Entries(pb, list, m) && RowMajor(list)
    ensures forall e: (nat, nat) :: e in list <==> OwnEntry(pb, rx, cx, e)
  {
    hide RowLoop, Entries, RowMajor;
    list := RowLoopVisits(pb, cx, rx, m);
    Division(rx, pb.wn, 0, rx);
    forall e: (nat, nat) ensures e in list <==> OwnEntry(pb, rx, cx, e) {
      LeastOfClass(rx, e.0, pb.wn);
    }
  }

  // ---------- The steps of a thread carry out its loops ----------

  /** Thread th with memory m gets to th', m' by running alone. */
  ghost predicate Reaches(pb: Problem, rx: nat, cx: nat, th: Thread, m: Mem, th': Thread, m': Mem) {
    exists n: nat :: Solo(pb, rx, cx, th, m, n) == (th', m')
  }

  lemma ReachesNow(pb: Problem, rx: nat, cx: nat, th: Thread, m: Mem)
    ensures Reaches(pb, rx, cx, th, m, th, m)
  {
    assert Solo(pb, rx, cx, th, m, 0) == (th, m);
  }

  /** One step, then whatever is reached from there. */
  lemma StepReaches(pb: Problem, rx: nat, cx: nat, th: Thread, m: Mem, th': Thread, m': Mem)
    requires var r := Micro(pb, rx, cx, th, m); Reaches(pb, rx, cx, r.0, r.1, th', m')
    ensures Reaches(pb, rx, cx, th, m, th', m')
  {
    hide Micro;
    var r := Micro(pb, rx, cx, th, m);
    var n: nat :| Solo(pb, rx, cx, r.0, r.1, n) == (th', m');
    assert Solo(pb, rx, cx, th, m, 0) == (th, m);
    assert Solo(pb, rx, cx, th, m, 1) == r;
    SoloAdd(pb, rx, cx, th, m, 1, n);
  }

  lemma {:induction false} DotRuns(pb: Problem, rx: nat, cx: nat, th: Thread, m: Mem) returns (th': Thread)
    requires th.pc.DotTest? && th.k <= pb.dim && th.err == ErrAfter(pb, th.i, th.j, th.k, m)
    ensures Reaches(pb, rx, cx, th, m, th', m)
    ensures th'.pc.UpdTest? && th'.i == th.i && th'.j == th.j && th'.k == 0
    ensures th'.err == ErrAfter(pb, th.i, th.j, pb.dim, m)
    decreases pb.dim - th.k
  {
    hide Reaches;
    var t1 := Micro(pb, rx, cx, th, m).0;
    if th.k == pb.dim {
      th' := t1;
      ReachesNow(pb, rx, cx, t1, m);
    } else {
      var t2 := Micro(pb, rx, cx, t1, m).0;
      var t3 := Micro(pb, rx, cx, t2, m).0;
      th' := DotRuns(pb, rx, cx, t3, m);
      StepReaches(pb, rx, cx, t2, m, th', m);
      StepReaches(pb, rx, cx, t1, m, th', m);
    }
    StepReaches(pb, rx, cx, th, m, th', m);
  }

  lemma ReachesJoin(pb: Problem, rx: nat, cx: nat, th: Thread, m: Mem, th1: Thread, m1: Mem, th2: Thread, m2: Mem)
    requires Reaches(pb, rx, cx, th, m, th1, m1) && Reaches(pb, rx, cx, th1, m1, th2, m2)
    ensures Reaches(pb, rx, cx, th, m, th2, m2)
  {
    hide Micro;
    var n: nat :| Solo(pb, rx, cx, th, m, n) == (th1, m1);
    var p: nat :| Solo(pb, rx, cx, th1, m1, p) == (th2, m2);
    SoloAdd(pb, rx, cx, th, m, n, p);
    assert Solo(pb, rx, cx, th, m, n + p) == (th2, m2);
  }

  /** The six accesses of one pass of the update loop. */
  lemma UpdElemRuns(pb: Problem, rx: nat, cx: nat, th: Thread, m: Mem) returns (th': Thread)
    requires th.pc.UpdCol?
    ensures Reaches(pb, rx, cx, th, m, th', UpdElem(pb, th.i, th.j, th.k, th.err, m))
    ensures th'.pc.UpdTest? && th'.i == th.i && th'.j == th.j && th'.k == th.k + 1 && th'.err == th.err
  {
    hide Reaches, At, Get, Put, Nudge;
    var t2 := Micro(pb, rx, cx, th, m).0;
    var t3 := Micro(pb, rx, cx, t2, m).0;
    var (t4, m4) := Micro(pb, rx, cx, t3, m);
    var t5 := Micro(pb, rx, cx, t4, m4).0;
    var t6 := Micro(pb, rx, cx, t5, m4).0;
    var mEnd := UpdElem(pb, th.i, th.j, th.k, th.err, m);
    th' := Micro(pb, rx, cx, t6, m4).0;
    assert Micro(pb, rx, cx, t6, m4) == (th', mEnd);
    ReachesNow(pb, rx, cx, th', mEnd);
    StepReaches(pb, rx, cx, t6, m4, th', mEnd);
    StepReaches(pb, rx, cx, t5, m4, th', mEnd);
    StepReaches(pb, rx, cx, t4, m4, th', mEnd);
    StepReaches(pb, rx, cx, t3, m, th', mEnd);
    StepReaches(pb, rx, cx, t2, m, th', mEnd);
    StepReaches(pb, rx, cx, th, m, th', mEnd);
  }

  /** `m0` is the memory the update loop started from. */
  lemma {:induction false} UpdRuns(pb: Problem, rx: nat, cx: nat, th: Thread, m: Mem, m0: Mem) returns (th': Thread)
    requires th.pc.UpdTest? && th.k <= pb.dim && m == Updated(pb, th.i, th.j, th.k, th.err, m0)
    ensures Reaches(pb, rx, cx, th, m, th', Updated(pb, th.i, th.j, pb.dim, th.err, m0))
    ensures th'.pc.ColTest? && th'.i == th.i && th'.j == th.j + pb.wn
    decreases pb.dim - th.k
  {
    hide Reaches, UpdElem;
    var t1 := Micro(pb, rx, cx, th, m).0;
    var mEnd := Updated(pb, th.i, th.j, pb.dim, th.err, m0);
    if th.k == pb.dim {
      th' := t1;
      ReachesNow(pb, rx, cx, t1, m);
    } else {
      var t2 := UpdElemRuns(pb, rx, cx, t1, m);
      var m2 := UpdElem(pb, th.i, th.j, th.k, th.err, m);
      th' := UpdRuns(pb, rx, cx, t2, m2, m0);
      ReachesJoin(pb, rx, cx, t1, m, t2, m2, th', mEnd);
    }
    StepReaches(pb, rx, cx, th, m, th', mEnd);
  }

  lemma EntryRuns(pb: Problem, rx: nat, cx: nat, th: Thread, m: Mem) returns (th': Thread)
    requires th.pc.Rate?
    ensures Reaches(pb, rx, cx, th, m, th', Entry(pb, th.i, th.j, m))
    ensures th'.pc.ColTest? && th'.i == th.i && th'.j == th.j + pb.wn
  {
    hide Reaches, Updated;
    var t1 := Micro(pb, rx, cx, th, m).0;
    var mEnd := Entry(pb, th.i, th.j, m);
    if t1.pc.ColTest? {
      th' := t1;
      ReachesNow(pb, rx, cx, t1, m);
    } else {
      var t2 := DotRuns(pb, rx, cx, t1, m);
      assert m == Updated(pb, t2.i, t2.j, 0, t2.err, m) by { UpdatedNone(pb, t2.i, t2.j, t2.err, m); }
      th' := UpdRuns(pb, rx, cx, t2, m, m);
      ReachesJoin(pb, rx, cx, t1, m, t2, m, th', mEnd);
    }
    StepReaches(pb, rx, cx, th, m, th', mEnd);
  }

  lemma UpdatedNone(pb: Problem, i: nat, j: nat, err: real, m: Mem)
    ensures Updated(pb, i, j, 0, err, m) == m
  {
  }

  lemma {:induction false} ColRuns(pb: Problem, rx: nat, cx: nat, th: Thread, m: Mem) returns (th': Thread)
    requires pb.wn > 0 && th.pc.ColTest?
    ensures Reaches(pb, rx, cx, th, m, th', ColLoop(pb, th.i, th.j, m))
    ensures th'.pc.RowTest? && th'.i == th.i + pb.wn
    decreases if th.j < pb.colHeight then pb.colHeight - th.j else 0
  {
    hide Reaches, Entry;
    var t1 := Micro(pb, rx, cx, th, m).0;
    var mEnd := ColLoop(pb, th.i, th.j, m);
    if th.j < pb.colHeight {
      var t2 := EntryRuns(pb, rx, cx, t1, m);
      var m2 := Entry(pb, th.i, th.j, m);
      th' := ColRuns(pb, rx, cx, t2, m2);
      ReachesJoin(pb, rx, cx, t1, m, t2, m2, th', mEnd);
    } else {
      th' := t1;
      ReachesNow(pb, rx, cx, t1, m);
    }
    StepReaches(pb, rx, cx, th, m, th', mEnd);
  }

  lemma {:induction false} RowRuns(pb: Problem, rx: nat, cx: nat, th: Thread, m: Mem) returns (th': Thread)
    requires pb.wn > 0 && th.pc.RowTest?
    ensures Reaches(pb, rx, cx, th, m, th', RowLoop(pb, cx, th.i, m)) && th'.pc.Finished?
    decreases if th.i < pb.rowHeight then pb.rowHeight - th.i else 0
  {
    hide Reaches, ColLoop;
    var t1 := Micro(pb, rx, cx, th, m).0;
    var mEnd := RowLoop(pb, cx, th.i, m);
    if th.i < pb.rowHeight {
      var t2 := ColRuns(pb, rx, cx, t1, m);
      var m2 := ColLoop(pb, th.i, cx, m);
      th' := RowRuns(pb, rx, cx, t2, m2);
      ReachesJoin(pb, rx, cx, t1, m, t2, m2, th', mEnd);
    } else {
      th' := t1;
      ReachesNow(pb, rx, cx, t1, m);
    }
    StepReaches(pb, rx, cx, th, m, th', mEnd);
  }

  /** A thread left alone finishes, and its accesses add up to its loop nest. */
  lemma ThreadRuns(pb: Problem, rx: nat, cx: nat, m: Mem) returns (n: nat, th': Thread)
    requires pb.wn > 0
    ensures Solo(pb, rx, cx, NewThread, m, n) == (th', RowLoop(pb, cx, rx, m)) && th'.pc.Finished?
  {
    hide RowLoop;
    var t1 := Micro(pb, rx, cx, NewThread, m).0;
    th' := RowRuns(pb, rx, cx, t1, m);
    StepReaches(pb, rx, cx, NewThread, m, th', RowLoop(pb, cx, rx, m));
    n :| Solo(pb, rx, cx, NewThread, m, n) == (th', RowLoop(pb, cx, rx, m));
  }

  // ---------- Launches ----------

  /** Thread t, not started yet, runs alone for n steps at the end of a schedule. */
  lemma {:induction false} AppendTurns(pb: Problem, rows: seq<nat>, cols: seq<nat>, l: Launch,
                                       s: seq<nat>, t: nat, n: nat)
    returns (s': seq<nat>)
    requires Ids(pb, rows, cols) && |l.threads| == pb.wn && t < pb.wn && Schedule(s, pb.wn)
    ensures Schedule(s', pb.wn)
    ensures var l1 := RunLaunch(pb, rows, cols, l, s);
            var r := Solo(pb, rows[t], cols[t], l1.threads[t], l1.m, n);
            RunLaunch(pb, rows, cols, l, s') == Launch(l1.threads[t := r.0], r.1)
  {
    hide Micro;
    if n == 0 {
      s' := s;
    } else {
      var s1 := AppendTurns(pb, rows, cols, l, s, t, n - 1);
      s' := s1 + [t];
      assert s'[..|s'| - 1] == s1;
    }
  }

  /** The serial order is one of the interleavings. */
  lemma {:induction false} SerialSchedule(pb: Problem, rows: seq<nat>, cols: seq<nat>, t: nat, m: Mem)
    returns (s: seq<nat>)
    requires Ids(pb, rows, cols) && t <= pb.wn
    ensures Schedule(s, pb.wn)
    ensures var l := RunLaunch(pb, rows, cols, NewLaunch(pb, m), s);
            && l.m == Serial(pb, rows, cols, t, m)
            && (forall u | 0 <= u < t :: l.threads[u].pc.Finished?)
            && (forall u | t <= u < pb.wn :: l.threads[u] == NewThread)
  {
    hide RowLoop;
    if t == 0 {
      s := [];
    } else {
      var s1 := SerialSchedule(pb, rows, cols, t - 1, m);
      var n, th' := ThreadRuns(pb, rows[t - 1], cols[t - 1], Serial(pb, rows, cols, t - 1, m));
      s := AppendTurns(pb, rows, cols, NewLaunch(pb, m), s1, t - 1, n);
    }
  }

  /** Some complete interleaving of the launch takes m to m'. */
  ghost predicate Launches(pb: Problem, rows: seq<nat>, cols: seq<nat>, m: Mem, m': Mem)
    requires Ids(pb, rows, cols)
  {
    exists s: seq<nat> :: Schedule(s, pb.wn) && Completes(pb, rows, cols, m, m', s)
  }

  ghost predicate Completes(pb: Problem, rows: seq<nat>, cols: seq<nat>, m: Mem, m': Mem, s: seq<nat>)
    requires Ids(pb, rows, cols) && Schedule(s, pb.wn)
  {
    var l := RunLaunch(pb, rows, cols, NewLaunch(pb, m), s);
    AllFinished(l) && l.m == m'
  }

  /** Whatever the interleaving, a launch computes what its threads compute one after another. */
  lemma LaunchIsSerial(pb: Problem, rows: seq<nat>, cols: seq<nat>, m: Mem, m': Mem)
    requires Fits(pb, m) && Permutation(rows, pb.wn) && Permutation(cols, pb.wn)
    ensures Launches(pb, rows, cols, m, m') <==> m' == Serial(pb, rows, cols, pb.wn, m)
  {
    var s := SerialSchedule(pb, rows, cols, pb.wn, m);
    assert Completes(pb, rows, cols, m, Serial(pb, rows, cols, pb.wn, m), s);
    if Launches(pb, rows, cols, m, m') {
      var s' :| Schedule(s', pb.wn) && Completes(pb, rows, cols, m, m', s');
      AnyTwoAgree(pb, rows, cols, m, s, s');
    }
  }

  // ---------- Many launches ----------

  /** The two id arrays of a launch, after shuffling. */
  type Shuffle = (seq<nat>, seq<nat>)

  ghost predicate Shuffles(pb: Problem, ids: seq<Shuffle>) {
    forall n | 0 <= n < |ids| :: Permutation(ids[n].0, pb.wn) && Permutation(ids[n].1, pb.wn)
  }

  /** The launches one after another, each one serial. */
  ghost function SerialAll(pb: Problem, ids: seq<Shuffle>, m: Mem): (m': Mem)
    requires pb.wn > 0 && Shuffles(pb, ids)
    ensures |m'.row| == |m.row| && |m'.col| == |m.col|
  {
    if ids == [] then m
    else Serial(pb, ids[|ids| - 1].0, ids[|ids| - 1].1, pb.wn, SerialAll(pb, ids[..|ids| - 1], m))
  }

  lemma OneMoreLaunch(pb: Problem, ids: seq<Shuffle>, id: Shuffle, m: Mem)
    requires pb.wn > 0 && Shuffles(pb, ids) && Permutation(id.0, pb.wn) && Permutation(id.1, pb.wn)
    ensures Shuffles(pb, ids + [id])
    ensures SerialAll(pb, ids + [id], m) == Serial(pb, id.0, id.1, pb.wn, SerialAll(pb, ids, m))
  {
    hide Serial;
    assert (ids + [id])[..|ids|] == ids;
  }

  /** `mems[n]` is the memory after n launches, each interleaved in some way of its own. */
  ghost predicate InterleavedAll(pb: Problem, ids: seq<Shuffle>, mems: seq<Mem>)
    requires pb.wn > 0 && Shuffles(pb, ids)
  {
    && |mems| == |ids| + 1
    && forall n | 0 <= n < |ids| :: Launches(pb, ids[n].0, ids[n].1, mems[n], mems[n + 1])
  }

  lemma {:induction false} InterleavedIsSerial(pb: Problem, ids: seq<Shuffle>, mems: seq<Mem>)
    requires pb.wn > 0 && Shuffles(pb, ids) && InterleavedAll(pb, ids, mems) && Fits(pb, mems[0])
    ensures mems[|ids|] == SerialAll(pb, ids, mems[0])
  {
    hide Launches, Serial, Permutation;
    if ids != [] {
      var n := |ids| - 1;
      assert InterleavedAll(pb, ids[..n], mems[..n + 1]);
      InterleavedIsSerial(pb, ids[..n], mems[..n + 1]);
      LaunchIsSerial(pb, ids[n].0, ids[n].1, mems[n], mems[n + 1]);
    }
  }

  lemma {:induction false} SerialIsInterleaved(pb: Problem, ids: seq<Shuffle>, m: Mem) returns (mems: seq<Mem>)
    requires pb.wn > 0 && Shuffles(pb, ids) && Fits(pb, m)
    ensures InterleavedAll(pb, ids, mems) && mems[0] == m && mems[|ids|] == SerialAll(pb, ids, m)
  {
    hide Launches, Serial;
    if ids == [] {
      mems := [m];
    } else {
      var n := |ids| - 1;
      var before := SerialIsInterleaved(pb, ids[..n], m);
      mems := before + [SerialAll(pb, ids, m)];
      LaunchIsSerial(pb, ids[n].0, ids[n].1, mems[n], mems[n + 1]);
      forall k | 0 <= k < n ensures Launches(pb, ids[k].0, ids[k].1, mems[k], mems[k + 1]) {
        assert Launches(pb, ids[..n][k].0, ids[..n][k].1, before[k], before[k + 1]);
      }
    }
  }

  /**
   The whole of gpu_mf is independent of how the threads of its launches interleave: a memory is what
   some interleaving of all launches leaves if and only if it is the serial result.
   */
  lemma AllLaunchesAreSerial(pb: Problem, ids: seq<Shuffle>, m: Mem, m': Mem)
    requires pb.wn > 0 && Shuffles(pb, ids) && Fits(pb, m)
    ensures (exists mems :: InterleavedAll(pb, ids, mems) && mems[0] == m && mems[|ids|] == m')
            <==> m' == SerialAll(pb, ids, m)
  {
    var serial := SerialIsInterleaved(pb, ids, m);
    forall mems | InterleavedAll(pb, ids, mems) && mems[0] == m ensures mems[|ids|] == SerialAll(pb, ids, m) {
      InterleavedIsSerial(pb, ids, mems);
    }
  }
}
