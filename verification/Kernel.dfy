/**
 The strided kernel (cuda_kernel_mf.cu:2-28). Thread t works on the rows congruent to
 random_row_id[t] and the columns congruent to random_col_id[t] modulo the number of threads. Its
 program is given here one access to the shared element arrays at a time, so that the threads of a
 launch can be interleaved in every way; doubles are reals.
 */
module Kernel {
  import opened Arith

  const YITA: real := 0.2
  const THETA: real := 0.2

  datatype Problem = Problem(dim: nat, rowHeight: nat, colHeight: nat, rating: seq<real>, wn: nat)

  datatype Mem = Mem(row: seq<real>, col: seq<real>)

  predicate Fits(pb: Problem, m: Mem) {
    && |m.row| == pb.rowHeight * pb.dim
    && |m.col| == pb.colHeight * pb.dim
    && |pb.rating| == pb.rowHeight * pb.colHeight
    && pb.wn > 0
  }

  // ---------- Locations and who owns them ----------

  function At(i: nat, width: nat, k: nat): nat { i * width + k }

  /** Residue class of the row that location x of an element array belongs to. */
  function Class(pb: Problem, x: nat): nat
    requires pb.dim > 0 && pb.wn > 0
  {
    (x / pb.dim) % pb.wn
  }

  lemma AtInRange(i: nat, height: nat, width: nat, k: nat)
    requires i < height && k < width
    ensures At(i, width, k) < height * width
  {
    MulMonotone(i + 1, height, width);
    MulNext(i, width);
  }

  lemma AtClass(pb: Problem, i: nat, k: nat)
    requires k < pb.dim && pb.wn > 0
    ensures Class(pb, At(i, pb.dim, k)) == i % pb.wn
  {
    Division(At(i, pb.dim, k), pb.dim, i, k);
  }

  lemma NextClass(i: nat, wn: nat)
    requires wn > 0
    ensures (i + wn) % wn == i % wn
  {
    MulNext(i / wn, wn);
    Division(i + wn, wn, i / wn + 1, i % wn);
  }

  // ---------- One thread, one access at a time ----------

  datatype Pc =
    | Start | RowTest | ColTest | Rate
    | DotTest | DotRow | DotCol
    | UpdTest | UpdCol | UpdRow | PutRow | SeeRow | SeeCol | PutCol
    | Finished

  /** Loop variables and registers of a thread. */
  datatype Thread = Thread(pc: Pc, i: nat, j: nat, k: nat, err: real, a: real, b: real)

  const NewThread: Thread := Thread(Start, 0, 0, 0, 0.0, 0.0, 0.0)

  function Get(s: seq<real>, x: nat): real {
    if x < |s| then s[x] else 0.0
  }

  function Put(s: seq<real>, x: nat, v: real): seq<real> {
    if x < |s| then s[x := v] else s
  }

  /** An element moved along the gradient: `own += yita * (err * other - theta * own)`. */
  function Nudge(err: real, own: real, other: real): real {
    own + YITA * (err * other - THETA * own)
  }

  lemma NudgeIs(err: real, own: real, other: real)
    ensures Nudge(err, own, other) == 0.96 * own + 0.2 * (err * other)
  {
  }

  function RowAt(pb: Problem, th: Thread): nat { At(th.i, pb.dim, th.k) }

  function ColAt(pb: Problem, th: Thread): nat { At(th.j, pb.dim, th.k) }

  function Micro(pb: Problem, rx: nat, cx: nat, th: Thread, m: Mem): (Thread, Mem) {
    match th.pc
    case Start => (th.(i := rx, pc := RowTest), m)
    case RowTest =>
      if th.i < pb.rowHeight then (th.(j := cx, pc := ColTest), m) else (th.(pc := Finished), m)
    case ColTest =>
      if th.j < pb.colHeight then (th.(pc := Rate), m) else (th.(i := th.i + pb.wn, pc := RowTest), m)
    case Rate =>
      var err := Get(pb.rating, At(th.i, pb.colHeight, th.j));
      if err == 0.0 then (th.(err := err, j := th.j + pb.wn, pc := ColTest), m)
      else (th.(err := err, k := 0, pc := DotTest), m)
    case DotTest => (if th.k < pb.dim then th.(pc := DotRow) else th.(k := 0, pc := UpdTest), m)
    case DotRow => (th.(a := Get(m.row, RowAt(pb, th)), pc := DotCol), m)
    case DotCol =>
      var b := Get(m.col, ColAt(pb, th));
      (th.(b := b, err := th.err - th.a * b, k := th.k + 1, pc := DotTest), m)
    case UpdTest => (if th.k < pb.dim then th.(pc := UpdCol) else th.(j := th.j + pb.wn, pc := ColTest), m)
    case UpdCol => (th.(b := Get(m.col, ColAt(pb, th)), pc := UpdRow), m)
    case UpdRow => (th.(a := Get(m.row, RowAt(pb, th)), pc := PutRow), m)
    case PutRow =>
      (th.(pc := SeeRow), m.(row := Put(m.row, RowAt(pb, th), Nudge(th.err, th.a, th.b))))
    case SeeRow => (th.(a := Get(m.row, RowAt(pb, th)), pc := SeeCol), m)
    case SeeCol => (th.(b := Get(m.col, ColAt(pb, th)), pc := PutCol), m)
    case PutCol =>
      (th.(k := th.k + 1, pc := UpdTest),
       m.(col := Put(m.col, ColAt(pb, th), Nudge(th.err, th.b, th.a))))
    case Finished => (th, m)
  }

  /** About to read or write a shared element. */
  predicate Accesses(pc: Pc) {
    pc.DotRow? || pc.DotCol? || pc.UpdCol? || pc.UpdRow? || pc.PutRow? || pc.SeeRow? || pc.SeeCol? || pc.PutCol?
  }

  /** A thread at work on an entry of its own rows and columns. */
  ghost predicate ThreadOk(pb: Problem, rx: nat, cx: nat, th: Thread)
    requires pb.wn > 0
  {
    && rx < pb.wn && cx < pb.wn
    && (!th.pc.Start? ==> th.i % pb.wn == rx)
    && (!th.pc.Start? && !th.pc.RowTest? && !th.pc.Finished? ==> th.i < pb.rowHeight && th.j % pb.wn == cx)
    && (Accesses(th.pc) ==> th.j < pb.colHeight && th.k < pb.dim)
    && (th.pc.Rate? || th.pc.DotTest? || th.pc.UpdTest? ==> th.j < pb.colHeight)
  }

  lemma MicroOk(pb: Problem, rx: nat, cx: nat, th: Thread, m: Mem)
    requires pb.wn > 0 && ThreadOk(pb, rx, cx, th)
    ensures ThreadOk(pb, rx, cx, Micro(pb, rx, cx, th, m).0)
  {
    Division(rx, pb.wn, 0, rx);
    Division(cx, pb.wn, 0, cx);
    NextClass(th.i, pb.wn);
    NextClass(th.j, pb.wn);
  }

  /** The two memories hold the same in every location that rows rx and columns cx own. */
  ghost predicate Agree(pb: Problem, rx: nat, cx: nat, m: Mem, m': Mem)
    requires pb.wn > 0
  {
    && |m.row| == |m'.row| && |m.col| == |m'.col|
    && (pb.dim > 0 ==>
          && (forall x | 0 <= x < |m.row| && Class(pb, x) == rx :: m.row[x] == m'.row[x])
          && (forall x | 0 <= x < |m.col| && Class(pb, x) == cx :: m.col[x] == m'.col[x]))
  }

  lemma OwnAccess(pb: Problem, rx: nat, cx: nat, th: Thread)
    requires pb.wn > 0 && ThreadOk(pb, rx, cx, th) && Accesses(th.pc)
    ensures Class(pb, RowAt(pb, th)) == rx && Class(pb, ColAt(pb, th)) == cx
  {
    AtClass(pb, th.i, th.k);
    AtClass(pb, th.j, th.k);
  }

  /** Every access is inside the arrays. */
  lemma AccessInRange(pb: Problem, rx: nat, cx: nat, th: Thread, m: Mem)
    requires Fits(pb, m) && ThreadOk(pb, rx, cx, th) && Accesses(th.pc)
    ensures RowAt(pb, th) < |m.row| && ColAt(pb, th) < |m.col|
    ensures At(th.i, pb.colHeight, th.j) < |pb.rating|
  {
    AtInRange(th.i, pb.rowHeight, pb.dim, th.k);
    AtInRange(th.j, pb.colHeight, pb.dim, th.k);
    AtInRange(th.i, pb.rowHeight, pb.colHeight, th.j);
  }

  /** A step sees and changes nothing but the thread's own locations. */
  lemma MicroLocal(pb: Problem, rx: nat, cx: nat, th: Thread, m: Mem, m': Mem)
    requires pb.wn > 0 && ThreadOk(pb, rx, cx, th) && Agree(pb, rx, cx, m, m')
    ensures Micro(pb, rx, cx, th, m).0 == Micro(pb, rx, cx, th, m').0
    ensures Agree(pb, rx, cx, Micro(pb, rx, cx, th, m).1, Micro(pb, rx, cx, th, m').1)
  {
    hide Class;
    if Accesses(th.pc) {
      OwnAccess(pb, rx, cx, th);
      hide ThreadOk, At;
      assert Get(m.row, RowAt(pb, th)) == Get(m'.row, RowAt(pb, th));
      assert Get(m.col, ColAt(pb, th)) == Get(m'.col, ColAt(pb, th));
      match th.pc
      case DotRow =>
      case DotCol =>
      case UpdCol =>
      case UpdRow =>
      case PutRow =>
      case SeeRow =>
      case SeeCol =>
      case PutCol =>
    }
  }

  lemma MicroLeavesOthers(pb: Problem, rx: nat, cx: nat, th: Thread, m: Mem, rx': nat, cx': nat)
    requires pb.wn > 0 && ThreadOk(pb, rx, cx, th) && rx' != rx && cx' != cx
    ensures Agree(pb, rx', cx', m, Micro(pb, rx, cx, th, m).1)
  {
    hide Class;
    if Accesses(th.pc) {
      OwnAccess(pb, rx, cx, th);
    }
  }

  /** Thread (rx, cx) running alone for n steps. */
  function Solo(pb: Problem, rx: nat, cx: nat, th: Thread, m: Mem, n: nat): (Thread, Mem) {
    if n == 0 then (th, m)
    else
      var (th', m') := Solo(pb, rx, cx, th, m, n - 1);
      Micro(pb, rx, cx, th', m')
  }

  lemma {:induction false} SoloAdd(pb: Problem, rx: nat, cx: nat, th: Thread, m: Mem, n: nat, p: nat)
    ensures var r := Solo(pb, rx, cx, th, m, n);
            Solo(pb, rx, cx, th, m, n + p) == Solo(pb, rx, cx, r.0, r.1, p)
  {
    hide Micro;
    if p > 0 {
      SoloAdd(pb, rx, cx, th, m, n, p - 1);
    }
  }

  lemma {:induction false} SoloOk(pb: Problem, rx: nat, cx: nat, th: Thread, m: Mem, n: nat)
    requires pb.wn > 0 && ThreadOk(pb, rx, cx, th)
    ensures ThreadOk(pb, rx, cx, Solo(pb, rx, cx, th, m, n).0)
  {
    hide Micro, ThreadOk;
    if n > 0 {
      SoloOk(pb, rx, cx, th, m, n - 1);
      var r := Solo(pb, rx, cx, th, m, n - 1);
      MicroOk(pb, rx, cx, r.0, r.1);
    }
  }

  lemma {:induction false} FinishedStays(pb: Problem, rx: nat, cx: nat, th: Thread, m: Mem, n: nat)
    requires th.pc.Finished?
    ensures Solo(pb, rx, cx, th, m, n) == (th, m)
  {
    if n > 0 {
      FinishedStays(pb, rx, cx, th, m, n - 1);
    }
  }

  /** Two finished runs of the same thread are the same run. */
  lemma FinishedOnce(pb: Problem, rx: nat, cx: nat, th: Thread, m: Mem, n: nat, p: nat)
    requires n <= p && Solo(pb, rx, cx, th, m, n).0.pc.Finished?
    ensures Solo(pb, rx, cx, th, m, p) == Solo(pb, rx, cx, th, m, n)
  {
    var r := Solo(pb, rx, cx, th, m, n);
    SoloAdd(pb, rx, cx, th, m, n, p - n);
    FinishedStays(pb, rx, cx, r.0, r.1, p - n);
  }

  // ---------- A launch: every interleaving of the threads ----------

  datatype Launch = Launch(threads: seq<Thread>, m: Mem)

  predicate Ids(pb: Problem, rows: seq<nat>, cols: seq<nat>) {
    |rows| == |cols| == pb.wn > 0
  }

  predicate Schedule(sched: seq<nat>, wn: nat) {
    forall k | 0 <= k < |sched| :: sched[k] < wn
  }

  /** `sched` says which thread makes each next access. */
  function RunLaunch(pb: Problem, rows: seq<nat>, cols: seq<nat>, l: Launch, sched: seq<nat>): (l': Launch)
    requires Ids(pb, rows, cols) && |l.threads| == pb.wn
    requires Schedule(sched, pb.wn)
    ensures |l'.threads| == pb.wn && |l'.m.row| == |l.m.row| && |l'.m.col| == |l.m.col|
  {
    if sched == [] then l
    else
      var l1 := RunLaunch(pb, rows, cols, l, sched[..|sched| - 1]);
      var t := sched[|sched| - 1];
      var (th, m) := Micro(pb, rows[t], cols[t], l1.threads[t], l1.m);
      Launch(l1.threads[t := th], m)
  }

  function NewLaunch(pb: Problem, m: Mem): (l: Launch)
    ensures |l.threads| == pb.wn
  {
    Launch(seq(pb.wn, _ => NewThread), m)
  }

  /** What `random_shuffle` of 0..wn-1 leaves: each residue once. */
  ghost predicate Permutation(ids: seq<nat>, wn: nat) {
    && |ids| == wn
    && (forall t | 0 <= t < wn :: ids[t] < wn)
    && (forall t, u | 0 <= t < u < wn :: ids[t] != ids[u])
    && (forall v | 0 <= v < wn :: v in ids)
  }

  function Turns(sched: seq<nat>, t: nat): nat {
    if sched == [] then 0
    else Turns(sched[..|sched| - 1], t) + if sched[|sched| - 1] == t then 1 else 0
  }

  /** After any interleaving each thread is where it would be alone, and sees what it would see. */
  lemma {:induction false} LaunchIsSolo(pb: Problem, rows: seq<nat>, cols: seq<nat>, m: Mem, sched: seq<nat>, t: nat)
    requires pb.wn > 0 && Permutation(rows, pb.wn) && Permutation(cols, pb.wn) && t < pb.wn
    requires Schedule(sched, pb.wn)
    ensures var l := RunLaunch(pb, rows, cols, NewLaunch(pb, m), sched);
            var solo := Solo(pb, rows[t], cols[t], NewThread, m, Turns(sched, t));
            && l.threads[t] == solo.0
            && Agree(pb, rows[t], cols[t], l.m, solo.1)
            && ThreadOk(pb, rows[t], cols[t], solo.0)
  {
    hide Micro, Agree, ThreadOk;
    NewThreadOk(pb, rows[t], cols[t], m);
    if sched != [] {
      var rest, u := sched[..|sched| - 1], sched[|sched| - 1];
      LaunchIsSolo(pb, rows, cols, m, rest, t);
      var l1 := RunLaunch(pb, rows, cols, NewLaunch(pb, m), rest);
      var solo := Solo(pb, rows[t], cols[t], NewThread, m, Turns(rest, t));
      if u == t {
        MicroLocal(pb, rows[t], cols[t], solo.0, l1.m, solo.1);
        MicroOk(pb, rows[t], cols[t], solo.0, solo.1);
      } else {
        assert rows[u] != rows[t] && cols[u] != cols[t];
        LaunchIsSolo(pb, rows, cols, m, rest, u);
        MicroLeavesOthers(pb, rows[u], cols[u], l1.threads[u], l1.m, rows[t], cols[t]);
        AgreeJoins(pb, rows[t], cols[t], l1.m, Micro(pb, rows[u], cols[u], l1.threads[u], l1.m).1, solo.1);
      }
    }
  }

  lemma NewThreadOk(pb: Problem, rx: nat, cx: nat, m: Mem)
    requires pb.wn > 0 && rx < pb.wn && cx < pb.wn
    ensures ThreadOk(pb, rx, cx, NewThread) && Agree(pb, rx, cx, m, m)
  {
  }

  lemma AgreeJoins(pb: Problem, rx: nat, cx: nat, m: Mem, m': Mem, m'': Mem)
    requires pb.wn > 0 && Agree(pb, rx, cx, m, m') && Agree(pb, rx, cx, m, m'')
    ensures Agree(pb, rx, cx, m', m'')
  {
  }

  ghost predicate AllFinished(l: Launch) {
    forall t | 0 <= t < |l.threads| :: l.threads[t].pc.Finished?
  }

  /** Two complete interleavings of the same launch leave the same elements. */
  lemma AnyTwoAgree(pb: Problem, rows: seq<nat>, cols: seq<nat>, m: Mem, s1: seq<nat>, s2: seq<nat>)
    requires Fits(pb, m) && Permutation(rows, pb.wn) && Permutation(cols, pb.wn)
    requires Schedule(s1, pb.wn) && Schedule(s2, pb.wn)
    requires AllFinished(RunLaunch(pb, rows, cols, NewLaunch(pb, m), s1))
    requires AllFinished(RunLaunch(pb, rows, cols, NewLaunch(pb, m), s2))
    ensures RunLaunch(pb, rows, cols, NewLaunch(pb, m), s1).m == RunLaunch(pb, rows, cols, NewLaunch(pb, m), s2).m
  {
    var m1 := RunLaunch(pb, rows, cols, NewLaunch(pb, m), s1).m;
    var m2 := RunLaunch(pb, rows, cols, NewLaunch(pb, m), s2).m;
    forall t | 0 <= t < pb.wn ensures Agree(pb, rows[t], cols[t], m1, m2) {
      hide Micro, ThreadOk, Agree;
      LaunchIsSolo(pb, rows, cols, m, s1, t);
      LaunchIsSolo(pb, rows, cols, m, s2, t);
      var n1, n2 := Turns(s1, t), Turns(s2, t);
      if n1 <= n2 {
        FinishedOnce(pb, rows[t], cols[t], NewThread, m, n1, n2);
      } else {
        FinishedOnce(pb, rows[t], cols[t], NewThread, m, n2, n1);
      }
      AgreeMeets(pb, rows[t], cols[t], m1, m2, Solo(pb, rows[t], cols[t], NewThread, m, n1).1);
    }
    EveryLocationOwned(pb, rows, cols, m1, m2);
  }

  lemma AgreeMeets(pb: Problem, rx: nat, cx: nat, m: Mem, m': Mem, m'': Mem)
    requires pb.wn > 0 && Agree(pb, rx, cx, m, m'') && Agree(pb, rx, cx, m', m'')
    ensures Agree(pb, rx, cx, m, m')
  {
  }

  lemma EveryLocationOwned(pb: Problem, rows: seq<nat>, cols: seq<nat>, m1: Mem, m2: Mem)
    requires pb.wn > 0 && Permutation(rows, pb.wn) && Permutation(cols, pb.wn)
    requires pb.dim == 0 ==> m1.row == m2.row && m1.col == m2.col
    requires forall t | 0 <= t < pb.wn :: Agree(pb, rows[t], cols[t], m1, m2)
    ensures m1 == m2
  {
    assert Agree(pb, rows[0], cols[0], m1, m2);
    if pb.dim > 0 {
      forall x | 0 <= x < |m1.row| ensures m1.row[x] == m2.row[x] {
        assert Class(pb, x) in rows;
        var t :| 0 <= t < pb.wn && rows[t] == Class(pb, x);
        assert Agree(pb, rows[t], cols[t], m1, m2);
      }
      forall x | 0 <= x < |m1.col| ensures m1.col[x] == m2.col[x] {
        assert Class(pb, x) in cols;
        var t :| 0 <= t < pb.wn && cols[t] == Class(pb, x);
        assert Agree(pb, rows[t], cols[t], m1, m2);
      }
    }
  }
}
