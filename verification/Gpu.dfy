/**
 gpu_mf and cuda_mf on arrays (gpu_mf.cu:3-35, cuda_kernel_mf.cu:2-28). A launch runs its threads one
 after another here; `KernelLoops.LaunchIsSerial` says that no other order could leave anything else.
 */
module Gpu {
  import opened Kernel
  import opened KernelLoops
  import opened Shuffling
  import opened Vectors

  const ITER_NUM: nat := 100

  // ---------- The kernel ----------

  /** The error of entry (i, j): its rating minus the product of row and column. */
  method EntryError(ghost pb: Problem, row: array<real>, col: array<real>, dim: nat, colHeight: nat,
                    rating: array<real>, i: nat, j: nat)
    returns (err: real)
    requires pb.dim == dim && pb.colHeight == colHeight && pb.rating == rating[..]
    requires Fits(pb, Mem(row[..], col[..])) && i < pb.rowHeight && j < colHeight
    ensures var r := Get(rating[..], i * colHeight + j);
            err == if r == 0.0 then 0.0 else r - Dot(Vec(row[..], i, dim), Vec(col[..], j, dim))
    ensures err == if Get(pb.rating, At(i, colHeight, j)) == 0.0 then 0.0
                   else ErrAfter(pb, i, j, dim, Mem(row[..], col[..]))
  {
    hide Fits;
    ghost var m := Mem(row[..], col[..]);
    assert At(i, colHeight, j) < rating.Length by { Sizes(pb, m, i, j, 0); }
    err := rating[i * colHeight + j];
    if err == 0.0 {
      return;
    }
    var k := 0;
    while k < dim
      invariant 0 <= k <= dim
      invariant err == ErrAfter(pb, i, j, k, m)
    {
      Sizes(pb, m, i, j, k);
      err := err - row[i * dim + k] * col[j * dim + k];
      k := k + 1;
    }
    ErrIsRatingMinusDot(pb, i, j, m);
  }

  method UpdateEntry(ghost pb: Problem, row: array<real>, col: array<real>, dim: nat, i: nat, j: nat, err: real)
    requires row != col && pb.dim == dim
    requires i * dim + dim <= row.Length && j * dim + dim <= col.Length
    modifies row, col
    ensures ElementsMoved(old(row[..]), old(col[..]), i * dim, j * dim, dim, err, row[..], col[..])
    ensures Mem(row[..], col[..]) == Updated(pb, i, j, dim, err, Mem(old(row[..]), old(col[..])))
  {
    hide ElementsMoved, Nudge;
    ghost var m := Mem(row[..], col[..]);
    var k := 0;
    while k < dim
      invariant 0 <= k <= dim
      invariant Mem(row[..], col[..]) == Updated(pb, i, j, k, err, m)
    {
      ghost var mk := Mem(row[..], col[..]);
      row[i * dim + k] := Nudge(err, row[i * dim + k], col[j * dim + k]);
      col[j * dim + k] := Nudge(err, col[j * dim + k], row[i * dim + k]);
      assert Mem(row[..], col[..]) == UpdElem(pb, i, j, k, err, mk);
      k := k + 1;
    }
    UpdatedMovesElements(pb, i, j, dim, err, m);
  }

  /** One thread of the launch. */
  method CudaMf(ghost pb: Problem, row: array<real>, col: array<real>, dim: nat, rowHeight: nat, colHeight: nat,
                rating: array<real>, randomRowId: array<nat>, randomColId: array<nat>, wn: nat, tid: nat)
    requires pb == Problem(dim, rowHeight, colHeight, rating[..], wn)
    requires row != col && rating != row && rating != col && Fits(pb, Mem(row[..], col[..]))
    requires randomRowId.Length == randomColId.Length == wn && tid < wn
    modifies row, col
    ensures Mem(row[..], col[..]) ==
            RowLoop(pb, randomColId[tid], randomRowId[tid], Mem(old(row[..]), old(col[..])))
  {
    hide ErrAfter, Updated;
    ghost var m := Mem(row[..], col[..]);
    var rRx, rCx := randomRowId[tid], randomColId[tid];
    var i := rRx;
    while i < rowHeight
      invariant Fits(pb, Mem(row[..], col[..])) && pb.rating == rating[..]
      invariant RowLoop(pb, rCx, i, Mem(row[..], col[..])) == RowLoop(pb, rCx, rRx, m)
      decreases rowHeight - i
    {
      ghost var mi := Mem(row[..], col[..]);
      var j := rCx;
      while j < colHeight
        invariant Fits(pb, Mem(row[..], col[..])) && pb.rating == rating[..]
        invariant ColLoop(pb, i, j, Mem(row[..], col[..])) == ColLoop(pb, i, rCx, mi)
        decreases colHeight - j
      {
        ghost var mj := Mem(row[..], col[..]);
        Sizes(pb, mj, i, j, 0);
        var err := rating[i * colHeight + j];
        if err == 0.0 {
          assert Entry(pb, i, j, mj) == mj;
          j := j + wn;
          continue;
        }
        err := EntryError(pb, row, col, dim, colHeight, rating, i, j);
        UpdateEntry(pb, row, col, dim, i, j, err);
        assert Mem(row[..], col[..]) == Entry(pb, i, j, mj);
        j := j + wn;
      }
      i := i + wn;
    }
  }

  // ---------- The driver ----------

  /** Every entry trades places with a random earlier one, or stays; `draws` are the random numbers. */
  method RandomShuffle(ids: array<nat>, draws: seq<nat>)
    requires Permutation(ids[..], ids.Length) && ids.Length <= |draws|
    modifies ids
    ensures ids[..] == Shuffled(old(ids[..]), draws, ids.Length)
    ensures Permutation(ids[..], ids.Length)
  {
    ghost var ids0 := ids[..];
    var i := 1;
    while i < ids.Length
      invariant 1 <= i
      invariant ids[..] == Shuffled(ids0, draws, if i <= ids.Length then i else ids.Length)
    {
      var j := draws[i] % (i + 1);
      ghost var before := ids[..];
      ids[i], ids[j] := ids[j], ids[i];
      assert ids[..] == Swapped(before, i, j);
      i := i + 1;
    }
    ShuffledIsPermutation(ids0, draws, ids.Length);
  }

  method FillIds(rowIds: array<nat>, colIds: array<nat>, wn: nat)
    requires rowIds != colIds && rowIds.Length == colIds.Length == wn
    modifies rowIds, colIds
    ensures forall t | 0 <= t < wn :: rowIds[t] == t && colIds[t] == t
    ensures Permutation(rowIds[..], wn) && Permutation(colIds[..], wn)
  {
    var i := 0;
    while i < wn
      invariant 0 <= i <= wn
      invariant forall t | 0 <= t < i :: rowIds[t] == t && colIds[t] == t
    {
      rowIds[i] := i;
      colIds[i] := i;
      i := i + 1;
    }
    forall v | 0 <= v < wn ensures v in rowIds[..] && v in colIds[..] {
      assert rowIds[..][v] == v && colIds[..][v] == v;
    }
  }

  /** Both id arrays of a launch, filled and shuffled (gpu_mf.cu:20-25). */
  method ShuffleIds(rowIds: array<nat>, colIds: array<nat>, wn: nat, rowDraws: seq<nat>, colDraws: seq<nat>)
    requires rowIds != colIds && rowIds.Length == colIds.Length == wn
    requires |rowDraws| >= wn && |colDraws| >= wn
    modifies rowIds, colIds
    ensures rowIds[..] == Shuffled(Identity(wn), rowDraws, wn)
    ensures colIds[..] == Shuffled(Identity(wn), colDraws, wn)
    ensures Permutation(rowIds[..], wn) && Permutation(colIds[..], wn)
  {
    FillIds(rowIds, colIds, wn);
    assert rowIds[..] == Identity(wn) && colIds[..] == Identity(wn);
    RandomShuffle(rowIds, rowDraws);
    RandomShuffle(colIds, colDraws);
  }

  /** `cuda_mf<<<1, wn>>>`, its threads in their serial order. */
  method LaunchSerially(ghost pb: Problem, row: array<real>, col: array<real>, dim: nat, rowHeight: nat, colHeight: nat,
                        rating: array<real>, rowIds: array<nat>, colIds: array<nat>, wn: nat)
    requires pb == Problem(dim, rowHeight, colHeight, rating[..], wn)
    requires row != col && rating != row && rating != col && Fits(pb, Mem(row[..], col[..]))
    requires rowIds.Length == colIds.Length == wn
    modifies row, col
    ensures Mem(row[..], col[..]) == Serial(pb, rowIds[..], colIds[..], wn, Mem(old(row[..]), old(col[..])))
  {
    hide RowLoop;
    ghost var m := Mem(row[..], col[..]);
    var tid := 0;
    while tid < wn
      invariant 0 <= tid <= wn
      invariant pb.rating == rating[..]
      invariant Mem(row[..], col[..]) == Serial(pb, rowIds[..], colIds[..], tid, m)
    {
      CudaMf(pb, row, col, dim, rowHeight, colHeight, rating, rowIds, colIds, wn, tid);
      tid := tid + 1;
    }
  }

  lemma NoLaunch(pb: Problem, m: Mem)
    requires pb.wn > 0
    ensures Shuffles(pb, []) && SerialAll(pb, [], m) == m
  {
  }

  /** `cudaMemcpy` of a whole array. */
  method Copy(dst: array<real>, src: array<real>)
    requires dst != src && dst.Length == src.Length
    modifies dst
    ensures dst[..] == src[..]
  {
    var k := 0;
    while k < src.Length
      invariant 0 <= k <= src.Length
      invariant forall x | 0 <= x < k :: dst[x] == src[x]
    {
      dst[k] := src[k];
      k := k + 1;
    }
  }

  /**
   `rowDraws[n]` and `colDraws[n]` are the random numbers of the n-th pair of shuffles. `ids` are the
   id arrays they make of the identity, launch by launch; the result is what any interleaving of those
   launches gives.
   */
  method GpuMf(row: array<real>, col: array<real>, dim: nat, rowHeight: nat, colHeight: nat, rating: array<real>,
               rowIds: array<nat>, colIds: array<nat>, wn: nat, rowDraws: seq<seq<nat>>, colDraws: seq<seq<nat>>)
    returns (ghost ids: seq<Shuffle>)
    requires row != col && rating != row && rating != col && rowIds != colIds
    requires Fits(Problem(dim, rowHeight, colHeight, rating[..], wn), Mem(row[..], col[..]))
    requires rowIds.Length == colIds.Length == wn
    requires |rowDraws| == |colDraws| == ITER_NUM
    requires forall n | 0 <= n < ITER_NUM :: |rowDraws[n]| >= wn && |colDraws[n]| >= wn
    modifies row, col, rowIds, colIds
    ensures |ids| == ITER_NUM
    ensures forall n | 0 <= n < ITER_NUM ::
              ids[n] == (Shuffled(Identity(wn), rowDraws[n], wn), Shuffled(Identity(wn), colDraws[n], wn))
    ensures Shuffles(Problem(dim, rowHeight, colHeight, rating[..], wn), ids)
    ensures Mem(row[..], col[..]) ==
            SerialAll(Problem(dim, rowHeight, colHeight, rating[..], wn), ids, Mem(old(row[..]), old(col[..])))
  {
    hide Permutation, Serial, Shuffled, Identity, Shuffles;
    ghost var pb := Problem(dim, rowHeight, colHeight, rating[..], wn);
    ghost var m := Mem(row[..], col[..]);
    var dRow, dCol, dRating := new real[row.Length], new real[col.Length], new real[rating.Length];
    Copy(dRow, row);
    Copy(dCol, col);
    Copy(dRating, rating);
    ids := [];
    assert Shuffles(pb, ids) && SerialAll(pb, ids, m) == m by { NoLaunch(pb, m); }
    hide SerialAll;
    var iter := 0;
    while iter < ITER_NUM
      invariant 0 <= iter <= ITER_NUM == |rowDraws| == |colDraws|
      invariant |ids| == iter && Shuffles(pb, ids)
      invariant forall n | 0 <= n < iter ::
                  ids[n] == (Shuffled(Identity(wn), rowDraws[n], wn), Shuffled(Identity(wn), colDraws[n], wn))
      invariant dRating[..] == pb.rating && rating[..] == pb.rating
      invariant row[..] == m.row && col[..] == m.col
      invariant Mem(dRow[..], dCol[..]) == SerialAll(pb, ids, m)
    {
      ShuffleIds(rowIds, colIds, wn, rowDraws[iter], colDraws[iter]);
      OneMoreLaunch(pb, ids, (rowIds[..], colIds[..]), m);
      LaunchSerially(pb, dRow, dCol, dim, rowHeight, colHeight, dRating, rowIds, colIds, wn);
      ids := ids + [(rowIds[..], colIds[..])];
      iter := iter + 1;
    }
    Copy(row, dRow);
    Copy(col, dCol);
  }
}
