/**
 * Concatenation of equally long blocks, the shape of every buffer the mesh
 * builders fill: one block of vertices per ring or per grid row, one block of
 * indices per quad.
 */
module Sequences {

  /** `f(0) + f(1) + ... + f(n - 1)` */
  function Concat<T>(f: nat -> seq<T>, n: nat): seq<T>
  {
    if n == 0 then [] else Concat(f, n - 1) + f(n - 1)
  }

  /** Division by a positive `w` is determined by any quotient/remainder pair. */
  lemma DivModUnique(j: int, w: int, q: int, r: int)
    requires w > 0 && 0 <= r < w && j == q * w + r
    ensures j / w == q && j % w == r
  {
    var q', r' := j / w, j % w;
    assert j == q' * w + r';
    assert (q - q') * w == r' - r;
    if q' < q {
      assert (q - q') * w >= w by { MulAtLeast(q - q', w); }
    } else if q < q' {
      assert (q' - q) * w >= w by { MulAtLeast(q' - q, w); }
    }
  }

  /** `j` is `w` times its quotient plus its remainder. */
  lemma Split(j: nat, w: nat)
    requires w > 0
    ensures j == w * (j / w) + j % w && j % w < w
  {
  }

  /** A multiple of `w` leaves no remainder. */
  lemma MultipleMod(q: nat, w: nat)
    requires w > 0
    ensures (w * q) % w == 0
  {
    DivModUnique(w * q, w, q, 0);
  }

  lemma MulAtLeast(a: int, w: int)
    requires a >= 1 && w > 0
    ensures a * w >= w
  {
  }

  /** `a <= b` implies `a * w <= b * w` for a non-negative `w`. */
  lemma MulMonotone(a: int, b: int, w: int)
    requires a <= b && w >= 0
    ensures a * w <= b * w
  {
    assert b * w - a * w == (b - a) * w;
  }

  lemma {:induction false} ConcatLength<T>(f: nat -> seq<T>, n: nat, w: nat)
    requires forall i :: 0 <= i < n ==> |f(i)| == w
    ensures |Concat(f, n)| == w * n
  {
    if n > 0 {
      ConcatLength(f, n - 1, w);
      assert w * n == w * (n - 1) + w;
    }
  }

  /** Every element of `s` is below `bound`. */
  predicate AllBelow(s: seq<nat>, bound: nat)
  {
    forall j :: 0 <= j < |s| ==> s[j] < bound
  }

  lemma AllBelowAppend(s: seq<nat>, t: seq<nat>, bound: nat)
    requires AllBelow(s, bound) && AllBelow(t, bound)
    ensures AllBelow(s + t, bound)
  {
    forall j | 0 <= j < |s + t| ensures (s + t)[j] < bound {
      if j >= |s| {
        assert (s + t)[j] == t[j - |s|];
      }
    }
  }

  lemma {:induction false} ConcatBelow(f: nat -> seq<nat>, n: nat, bound: nat)
    requires forall i :: 0 <= i < n ==> AllBelow(f(i), bound)
    ensures AllBelow(Concat(f, n), bound)
  {
    if n > 0 {
      ConcatBelow(f, n - 1, bound);
      var s := Concat(f, n);
      assert s == Concat(f, n - 1) + f(n - 1);
      forall j | 0 <= j < |s| ensures s[j] < bound {
        if j >= |Concat(f, n - 1)| {
          assert s[j] == f(n - 1)[j - |Concat(f, n - 1)|];
        }
      }
    }
  }
}
