/** Products and norms of vectors of reals, and that the product is linear in either vector. */
module Vectors {

  function Dot(a: seq<real>, b: seq<real>): real
    requires |a| == |b|
  {
    if a == [] then 0.0
    else Dot(a[..|a| - 1], b[..|b| - 1]) + a[|a| - 1] * b[|b| - 1]
  }

  function Norm2(a: seq<real>): real {
    Dot(a, a)
  }

  function Mix(x: real, a: real, y: real, b: real): real {
    x * a + y * b
  }

  function Comb(x: real, a: seq<real>, y: real, b: seq<real>): (r: seq<real>)
    requires |a| == |b|
    ensures |r| == |a|
  {
    seq(|a|, k requires 0 <= k < |a| => Mix(x, a[k], y, b[k]))
  }

  lemma CombInit(x: real, a: seq<real>, y: real, b: seq<real>)
    requires |a| == |b| && a != []
    ensures Comb(x, a, y, b)[..|a| - 1] == Comb(x, a[..|a| - 1], y, b[..|b| - 1])
  {
    var n := |a| - 1;
    forall k | 0 <= k < n ensures Comb(x, a, y, b)[..n][k] == Comb(x, a[..n], y, b[..n])[k] {
    }
  }

  lemma {:induction false} DotComb(x: real, a: seq<real>, y: real, b: seq<real>, c: seq<real>)
    requires |a| == |b| == |c|
    ensures Dot(Comb(x, a, y, b), c) == Mix(x, Dot(a, c), y, Dot(b, c))
  {
    if a != [] {
      var n := |a| - 1;
      CombInit(x, a, y, b);
      DotComb(x, a[..n], y, b[..n], c[..n]);
      var da, db := Dot(a[..n], c[..n]), Dot(b[..n], c[..n]);
      assert (x * a[n] + y * b[n]) * c[n] == x * (a[n] * c[n]) + y * (b[n] * c[n]);
      assert x * (da + a[n] * c[n]) == x * da + x * (a[n] * c[n]);
      assert y * (db + b[n] * c[n]) == y * db + y * (b[n] * c[n]);
    }
  }

  lemma {:induction false} DotCommutes(a: seq<real>, b: seq<real>)
    requires |a| == |b|
    ensures Dot(a, b) == Dot(b, a)
  {
    if a != [] {
      DotCommutes(a[..|a| - 1], b[..|b| - 1]);
    }
  }

  /** The squared norm of a combination, from the two squared norms and the product. */
  function NormOf(x: real, n: real, y: real, d: real, m: real): real {
    Mix(x, Mix(x, n, y, d), y, Mix(x, d, y, m))
  }

  lemma NormComb(x: real, a: seq<real>, y: real, b: seq<real>)
    requires |a| == |b|
    ensures Norm2(Comb(x, a, y, b)) == NormOf(x, Norm2(a), y, Dot(a, b), Norm2(b))
  {
    hide Dot, Comb, Mix;
    var c := Comb(x, a, y, b);
    DotComb(x, a, y, b, c);
    DotCommutes(a, b);
    DotCommutes(a, c);
    DotCommutes(b, c);
    DotComb(x, a, y, b, a);
    DotComb(x, a, y, b, b);
  }

  lemma {:induction false} NormNotNegative(a: seq<real>)
    ensures Norm2(a) >= 0.0
  {
    if a != [] {
      NormNotNegative(a[..|a| - 1]);
    }
  }
}
