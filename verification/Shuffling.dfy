/**
 random_shuffle as gpu_mf uses it (gpu_mf.cu:24-25): entry i trades places with the entry that the
 i-th random number picks among 0..i. Over all draws that matter it takes the identity to every
 permutation, and to each in one way only.
 */
module Shuffling {
  import opened Arith
  import opened Kernel

  function Identity(n: nat): (r: seq<nat>)
    ensures |r| == n && forall k | 0 <= k < n :: r[k] == k
  {
    seq(n, k requires k >= 0 => k)
  }

  function Swapped(ids: seq<nat>, a: nat, b: nat): (r: seq<nat>)
    requires a < |ids| && b < |ids|
    ensures |r| == |ids|
  {
    ids[a := ids[b]][b := ids[a]]
  }

  /** After entries 1 to n - 1 have traded places. */
  function Shuffled(ids: seq<nat>, draws: seq<nat>, n: nat): (r: seq<nat>)
    requires n <= |ids| && n <= |draws|
    ensures |r| == |ids|
  {
    if n <= 1 then ids
    else Swapped(Shuffled(ids, draws, n - 1), n - 1, draws[n - 1] % n)
  }

  lemma SwapKeepsPermutation(ids: seq<nat>, a: nat, b: nat)
    requires Permutation(ids, |ids|) && a < |ids| && b < |ids|
    ensures Permutation(Swapped(ids, a, b), |ids|)
  {
    var ids' := Swapped(ids, a, b);
    forall v | 0 <= v < |ids| ensures v in ids' {
      assert v in ids;
      var t :| 0 <= t < |ids| && ids[t] == v;
      assert ids'[if t == a then b else if t == b then a else t] == v;
    }
  }

  lemma {:induction false} ShuffledIsPermutation(ids: seq<nat>, draws: seq<nat>, n: nat)
    requires n <= |ids| && n <= |draws| && Permutation(ids, |ids|)
    ensures Permutation(Shuffled(ids, draws, n), |ids|)
  {
    hide Permutation;
    if n > 1 {
      ShuffledIsPermutation(ids, draws, n - 1);
      SwapKeepsPermutation(Shuffled(ids, draws, n - 1), n - 1, draws[n - 1] % n);
    }
  }

  lemma IdentityIsPermutation(n: nat)
    ensures Permutation(Identity(n), n)
  {
    forall v | 0 <= v < n ensures v in Identity(n) {
      assert Identity(n)[v] == v;
    }
  }

  /** Entries that have not traded yet are where they were. */
  lemma {:induction false} LaterEntriesStay(ids: seq<nat>, draws: seq<nat>, n: nat)
    requires n <= |ids| && n <= |draws|
    ensures forall k | n <= k < |ids| && 0 < k :: Shuffled(ids, draws, n)[k] == ids[k]
  {
    if n > 1 {
      LaterEntriesStay(ids, draws, n - 1);
    }
  }

  lemma {:induction false} OnlyEarlierDrawsMatter(ids: seq<nat>, d: seq<nat>, d': seq<nat>, n: nat)
    requires n <= |ids| && n <= |d| && n <= |d'| && d[..n] == d'[..n]
    ensures Shuffled(ids, d, n) == Shuffled(ids, d', n)
  {
    if n > 1 {
      assert d[n - 1] == d[..n][n - 1] == d'[..n][n - 1] == d'[n - 1];
      assert d[..n - 1] == d[..n][..n - 1] == d'[..n][..n - 1] == d'[..n - 1];
      OnlyEarlierDrawsMatter(ids, d, d', n - 1);
    }
  }

  /** Every permutation is the result of some draws. */
  lemma EveryPermutationIsDrawn(p: seq<nat>) returns (draws: seq<nat>)
    requires Permutation(p, |p|)
    ensures |draws| == |p| && Shuffled(Identity(|p|), draws, |p|) == p
  {
    draws := DrawsFor(p, |p|);
  }

  /** The same while the entries from n on are still in their places. */
  lemma {:induction false} DrawsFor(p: seq<nat>, n: nat) returns (draws: seq<nat>)
    requires Permutation(p, |p|) && n <= |p| && forall k | n <= k < |p| :: p[k] == k
    ensures |draws| == |p| && Shuffled(Identity(|p|), draws, n) == p
    decreases n
  {
    hide Permutation, Swapped;
    if n <= 1 {
      draws := seq(|p|, _ => 0);
      OneEntryLeft(p);
    } else {
      var j := WhereLast(p, n);
      var q := Swapped(p, n - 1, j);
      SwapKeepsPermutation(p, n - 1, j);
      var before := DrawsFor(q, n - 1);
      draws := before[n - 1 := j];
      assert draws[..n - 1] == before[..n - 1];
      OnlyEarlierDrawsMatter(Identity(|p|), draws, before, n - 1);
      Division(j, n, 0, j);
    }
  }

  lemma OneEntryLeft(p: seq<nat>)
    requires Permutation(p, |p|) && forall k | 1 <= k < |p| :: p[k] == k
    ensures p == Identity(|p|)
  {
    if p != [] {
      assert 0 in p;
    }
  }

  /** Where n - 1 is, and that trading it back undoes the last trade. */
  lemma WhereLast(p: seq<nat>, n: nat) returns (j: nat)
    requires Permutation(p, |p|) && 1 < n <= |p| && forall k | n <= k < |p| :: p[k] == k
    ensures j < n
    ensures var q := Swapped(p, n - 1, j);
            Swapped(q, n - 1, j) == p && forall k | n - 1 <= k < |p| :: q[k] == k
  {
    assert n - 1 in p;
    j :| 0 <= j < |p| && p[j] == n - 1;
  }

  /** Draws give the same permutation if and only if they pick the same entries. */
  lemma {:induction false} SameShuffleIffSamePicks(len: nat, d: seq<nat>, d': seq<nat>, n: nat)
    requires n <= len && n <= |d| && n <= |d'|
    ensures Shuffled(Identity(len), d, n) == Shuffled(Identity(len), d', n)
            <==> forall i | 1 <= i < n :: d[i] % (i + 1) == d'[i] % (i + 1)
  {
    if n > 1 {
      var j, j' := d[n - 1] % n, d'[n - 1] % n;
      SameShuffleIffSamePicks(len, d, d', n - 1);
      if Shuffled(Identity(len), d, n) == Shuffled(Identity(len), d', n) {
        LastPickIsSeen(len, d, d', n);
      }
      assert j == j' && (forall i | 1 <= i < n - 1 :: d[i] % (i + 1) == d'[i] % (i + 1)) ==>
          forall i | 1 <= i < n :: d[i] % (i + 1) == d'[i] % (i + 1);
    }
  }

  /** The last trade puts n - 1 where it was picked to go, so it can be seen and undone. */
  lemma LastPickIsSeen(len: nat, d: seq<nat>, d': seq<nat>, n: nat)
    requires 1 < n <= len && n <= |d| && n <= |d'|
    requires Shuffled(Identity(len), d, n) == Shuffled(Identity(len), d', n)
    ensures d[n - 1] % n == d'[n - 1] % n
    ensures Shuffled(Identity(len), d, n - 1) == Shuffled(Identity(len), d', n - 1)
  {
    var q, q' := Shuffled(Identity(len), d, n - 1), Shuffled(Identity(len), d', n - 1);
    var j, j' := d[n - 1] % n, d'[n - 1] % n;
    IdentityIsPermutation(len);
    ShuffledIsPermutation(Identity(len), d, n);
    LaterEntriesStay(Identity(len), d, n - 1);
    LaterEntriesStay(Identity(len), d', n - 1);
    var p := Shuffled(Identity(len), d, n);
    assert p[j] == n - 1 && p[j'] == n - 1;
    assert j == j';
    assert q == Swapped(p, n - 1, j) && q' == Swapped(p, n - 1, j);
  }
}
