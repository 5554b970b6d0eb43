/** Cosine similarity of precedent embeddings (api/precedents_composer.py), over exact
    real arithmetic. `zip` cuts the dot product at the shorter vector; the norms see
    both vectors whole. */
module Precedents {

  function Dot(a: seq<real>, b: seq<real>, n: nat): real
    requires n <= |a| && n <= |b|
  {
    if n == 0 then 0.0 else Dot(a, b, n - 1) + a[n - 1] * b[n - 1]
  }

  function Shorter(a: seq<real>, b: seq<real>): nat {
    if |a| <= |b| then |a| else |b|
  }

  function SumSquares(a: seq<real>): real {
    Dot(a, a, |a|)
  }

  /** math.sqrt, as far as the code relies on it. */
  ghost predicate IsSqrt(root: real -> real) {
    forall x :: x >= 0.0 ==> root(x) >= 0.0 && root(x) * root(x) == x
  }

  /** _cosine. */
  function Cosine(a: seq<real>, b: seq<real>, root: real -> real): real {
    var na, nb := root(SumSquares(a)), root(SumSquares(b));
    if na == 0.0 || nb == 0.0 then 0.0
    else
      NonZeroProduct(na, nb);
      Dot(a, b, Shorter(a, b)) / (na * nb)
  }

  method ComputeCosine(a: seq<real>, b: seq<real>, root: real -> real) returns (sim: real)
    ensures sim == Cosine(a, b, root)
  {
    var dot := 0.0;
    for i := 0 to Shorter(a, b)
      invariant dot == Dot(a, b, i)
    {
      dot := dot + a[i] * b[i];
    }
    var sa := 0.0;
    for i := 0 to |a|
      invariant sa == Dot(a, a, i)
    {
      sa := sa + a[i] * a[i];
    }
    var sb := 0.0;
    for i := 0 to |b|
      invariant sb == Dot(b, b, i)
    {
      sb := sb + b[i] * b[i];
    }
    var na, nb := root(sa), root(sb);
    if na == 0.0 || nb == 0.0 {
      return 0.0;
    }
    NonZeroProduct(na, nb);
    return dot / (na * nb);
  }

  lemma NonZeroProduct(x: real, y: real)
    requires x != 0.0 && y != 0.0
    ensures x * y != 0.0
  {
  }

  lemma {:induction false} DotSymmetric(a: seq<real>, b: seq<real>, n: nat)
    requires n <= |a| && n <= |b|
    ensures Dot(a, b, n) == Dot(b, a, n)
  {
    if n > 0 {
      DotSymmetric(a, b, n - 1);
    }
  }

  lemma CosineSymmetric(a: seq<real>, b: seq<real>, root: real -> real)
    ensures Cosine(a, b, root) == Cosine(b, a, root)
  {
    DotSymmetric(a, b, Shorter(a, b));
  }

  lemma SquareNonNegative(x: real)
    ensures x * x >= 0.0
  {
  }

  lemma {:induction false} SquaresGrow(a: seq<real>, m: nat, n: nat)
    requires m <= n <= |a|
    ensures 0.0 <= Dot(a, a, m) <= Dot(a, a, n)
  {
    if n > 0 {
      SquareNonNegative(a[n - 1]);
      SquaresGrow(a, if m < n then m else n - 1, n - 1);
    }
  }

  /** x <= y follows from x^2 <= y^2 for non-negative y. */
  lemma SquareRootOrder(x: real, y: real)
    requires y >= 0.0 && x * x <= y * y
    ensures -y <= x <= y
  {
    if x > y {
      StrictSquare(x, y);
    } else if x < -y {
      StrictSquare(-x, y);
    }
  }

  lemma StrictSquare(x: real, y: real)
    requires x > y >= 0.0
    ensures x * x > y * y
  {
    calc {
      x * x;
    > { GrowFactor(x, y); }
      x * y;
    >= { MulOrder(y, x, y); }
      y * y;
    }
  }

  lemma GrowFactor(x: real, y: real)
    requires x > y >= 0.0
    ensures x * x > x * y
  {
    PositiveProduct(x, x - y);
  }

  lemma PositiveProduct(x: real, y: real)
    requires x > 0.0 && y > 0.0
    ensures x * y > 0.0
  {
  }

  /** The cross term of one induction step. */
  lemma CrossTerm(s: real, p: real, q: real, x: real, y: real)
    requires p >= 0.0 && q >= 0.0 && s * s <= p * q
    ensures 2.0 * (s * (x * y)) <= p * (y * y) + q * (x * x)
  {
    var u, v := p * (y * y), q * (x * x);
    SquareNonNegative(x);
    SquareNonNegative(y);
    SquareNonNegative(x * y);
    assert u >= 0.0 && v >= 0.0;
    assert u * v == (p * q) * ((x * y) * (x * y)) by {
      assert u * v == p * (y * y) * (q * (x * x));
      assert (x * y) * (x * y) == (x * x) * (y * y);
    }
    var c := s * (x * y);
    assert c * c == (s * s) * ((x * y) * (x * y));
    MulOrder(s * s, p * q, (x * y) * (x * y));
    assert c * c <= u * v;
    SquareNonNegative(u - v);
    assert (u + v) * (u + v) == (u - v) * (u - v) + 4.0 * (u * v);
    assert (2.0 * c) * (2.0 * c) == 4.0 * (c * c);
    SquareRootOrder(2.0 * c, u + v);
  }

  lemma MulOrder(a: real, b: real, k: real)
    requires a <= b && k >= 0.0
    ensures a * k <= b * k
  {
  }

  /** Cauchy-Schwarz for the first n components. */
  lemma {:induction false} CauchySchwarz(a: seq<real>, b: seq<real>, n: nat)
    requires n <= |a| && n <= |b|
    ensures Dot(a, b, n) * Dot(a, b, n) <= Dot(a, a, n) * Dot(b, b, n)
  {
    if n > 0 {
      var s, p, q := Dot(a, b, n - 1), Dot(a, a, n - 1), Dot(b, b, n - 1);
      var x, y := a[n - 1], b[n - 1];
      CauchySchwarz(a, b, n - 1);
      SquaresGrow(a, 0, n - 1);
      SquaresGrow(b, 0, n - 1);
      CrossTerm(s, p, q, x, y);
      assert (s + x * y) * (s + x * y) == s * s + 2.0 * (s * (x * y)) + (x * y) * (x * y);
      assert (p + x * x) * (q + y * y) == p * q + p * (y * y) + q * (x * x) + (x * x) * (y * y);
      assert (x * y) * (x * y) == (x * x) * (y * y);
    }
  }

  lemma QuotientBound(d: real, n: real)
    requires n > 0.0 && -n <= d <= n
    ensures -1.0 <= d / n <= 1.0
  {
  }

  /** The similarity lies in [-1, 1] for all vectors, of whatever lengths. */
  lemma CosineBounded(a: seq<real>, b: seq<real>, root: real -> real)
    requires IsSqrt(root)
    ensures -1.0 <= Cosine(a, b, root) <= 1.0
  {
    DotBounded(a, b);
    SquaresGrow(a, 0, |a|);
    SquaresGrow(b, 0, |b|);
    BoundedByRoots(Dot(a, b, Shorter(a, b)), SumSquares(a), SumSquares(b), root(SumSquares(a)), root(SumSquares(b)));
  }

  /** Cauchy-Schwarz with the whole norms. */
  lemma DotBounded(a: seq<real>, b: seq<real>)
    ensures var d := Dot(a, b, Shorter(a, b)); d * d <= SumSquares(a) * SumSquares(b)
  {
    var n := Shorter(a, b);
    CauchySchwarz(a, b, n);
    SquaresGrow(a, 0, n);
    SquaresGrow(b, 0, n);
    SquaresGrow(a, n, |a|);
    SquaresGrow(b, n, |b|);
    ProductOrder(Dot(a, a, n), SumSquares(a), Dot(b, b, n), SumSquares(b));
  }

  lemma BoundedByRoots(d: real, sa: real, sb: real, na: real, nb: real)
    requires d * d <= sa * sb && na >= 0.0 && nb >= 0.0 && na * na == sa && nb * nb == sb
    ensures na != 0.0 && nb != 0.0 ==> na * nb > 0.0 && -1.0 <= d / (na * nb) <= 1.0
  {
    if na != 0.0 && nb != 0.0 {
      PositiveProduct(na, nb);
      assert (na * nb) * (na * nb) == (na * na) * (nb * nb);
      SquareRootOrder(d, na * nb);
      QuotientBound(d, na * nb);
    }
  }

  lemma ProductOrder(p: real, p': real, q: real, q': real)
    requires 0.0 <= p <= p' && 0.0 <= q <= q'
    ensures p * q <= p' * q'
  {
    MulOrder(p, p', q);
    MulOrder(q, q', p');
  }

  /** The bound is reached: a non-zero vector is at similarity 1 with itself, and a zero
      vector at 0 with everything. */
  lemma CosineOfSelf(a: seq<real>, b: seq<real>, root: real -> real)
    requires IsSqrt(root)
    ensures SumSquares(a) != 0.0 ==> Cosine(a, a, root) == 1.0
    ensures SumSquares(a) == 0.0 ==> Cosine(a, b, root) == 0.0
  {
    SquaresGrow(a, 0, |a|);
    var na := root(SumSquares(a));
    assert na * na == SumSquares(a);
    if SumSquares(a) == 0.0 {
      ZeroRoot(na);
    } else {
      SelfQuotient(SumSquares(a));
    }
  }

  lemma ZeroRoot(x: real)
    requires x * x == 0.0
    ensures x == 0.0
  {
    if x != 0.0 {
      calc {
        0.0;
        x * x;
      > { NonZeroSquare(x); }
        0.0;
      }
    }
  }

  lemma NonZeroSquare(x: real)
    requires x != 0.0
    ensures x * x > 0.0
  {
  }

  lemma SelfQuotient(x: real)
    requires x != 0.0
    ensures x / x == 1.0
  {
  }

  // ----- what the similarity measures ---------------------------------------

  /** The two sums, one component more: the products of matching components, and the squares. */
  lemma OneComponentMore(a: seq<real>, b: seq<real>, x: real, y: real)
    requires |a| == |b|
    ensures var a', b' := a + [x], b + [y];
            && Dot(a', b', Shorter(a', b')) == Dot(a, b, Shorter(a, b)) + x * y
            && SumSquares(a') == SumSquares(a) + x * x
    ensures SumSquares([]) == 0.0
  {
    DotNext(a, b, x, y);
    DotNext(a, a, x, x);
  }

  lemma DotNext(a: seq<real>, b: seq<real>, x: real, y: real)
    requires |a| == |b|
    ensures Dot(a + [x], b + [y], |a| + 1) == Dot(a, b, |a|) + x * y
  {
    DotOfPrefix(a, [x], b, [y], |a|);
    assert (a + [x])[|a|] == x && (b + [y])[|a|] == y;
  }

  lemma {:induction false} DotOfPrefix(a: seq<real>, c: seq<real>, b: seq<real>, d: seq<real>, n: nat)
    requires n <= |a| && n <= |b|
    ensures Dot(a + c, b + d, n) == Dot(a, b, n)
  {
    if n > 0 {
      DotOfPrefix(a, c, b, d, n - 1);
    }
  }

  /** Components beyond the shorter vector do not enter the dot product. */
  lemma TailOutsideDot(a: seq<real>, b: seq<real>, tail: seq<real>)
    requires |a| == |b|
    ensures Dot(a + tail, b, Shorter(a + tail, b)) == Dot(a, b, |a|)
  {
    assert b + [] == b;
    DotOfPrefix(a, tail, b, [], |a|);
  }

  lemma RootOfPositive(x: real, y: real)
    requires x == y * y && x != 0.0
    ensures y != 0.0
  {
  }

  lemma QuotientTimes(d: real, n: real)
    requires n != 0.0
    ensures d / n * n == d
  {
  }

  /** Between non-zero vectors the similarity times both norms is the dot product. */
  lemma CosineTimesNorms(a: seq<real>, b: seq<real>, root: real -> real)
    requires IsSqrt(root) && SumSquares(a) != 0.0 && SumSquares(b) != 0.0
    ensures Cosine(a, b, root) * (root(SumSquares(a)) * root(SumSquares(b))) == Dot(a, b, Shorter(a, b))
  {
    SquaresGrow(a, 0, |a|);
    SquaresGrow(b, 0, |b|);
    var na, nb := root(SumSquares(a)), root(SumSquares(b));
    RootOfPositive(SumSquares(a), na);
    RootOfPositive(SumSquares(b), nb);
    NonZeroProduct(na, nb);
    QuotientTimes(Dot(a, b, Shorter(a, b)), na * nb);
  }

  function Scaled(k: real, a: seq<real>): seq<real> {
    seq(|a|, i requires 0 <= i < |a| => k * a[i])
  }

  lemma {:induction false} DotScales(k: real, a: seq<real>, b: seq<real>, n: nat)
    requires n <= |a| && n <= |b|
    ensures Dot(Scaled(k, a), b, n) == k * Dot(a, b, n)
  {
    if n > 0 {
      DotScales(k, a, b, n - 1);
      Distribute(k, Dot(a, b, n - 1), a[n - 1], b[n - 1]);
    }
  }

  lemma Distribute(k: real, d: real, x: real, y: real)
    ensures k * d + (k * x) * y == k * (d + x * y)
  {
    assert (k * x) * y == k * (x * y);
  }

  lemma SquaresScale(k: real, a: seq<real>)
    ensures SumSquares(Scaled(k, a)) == (k * k) * SumSquares(a)
  {
    var n := |a|;
    DotScales(k, a, Scaled(k, a), n);
    DotSymmetric(a, Scaled(k, a), n);
    DotScales(k, a, a, n);
    assert k * (k * SumSquares(a)) == (k * k) * SumSquares(a);
  }

  lemma SameSquareSameRoot(x: real, y: real)
    requires x >= 0.0 && y >= 0.0 && x * x == y * y
    ensures x == y
  {
    SquareRootOrder(x, y);
    SquareRootOrder(y, x);
  }

  lemma RootScales(k: real, s: real, t: real, root: real -> real)
    requires IsSqrt(root) && k > 0.0 && s >= 0.0 && t == (k * k) * s
    ensures t >= 0.0 && root(t) == k * root(s)
    ensures s != 0.0 ==> t != 0.0 && root(s) != 0.0
  {
    PositiveProduct(k, k);
    MulOrder(0.0, k * k, s);
    var m, n := root(s), root(t);
    MulOrder(0.0, k, m);
    assert (k * m) * (k * m) == (k * k) * (m * m);
    SameSquareSameRoot(n, k * m);
    if s != 0.0 {
      PositiveProduct(k * k, s);
      RootOfPositive(s, m);
    }
  }

  lemma ZeroNorm(a: seq<real>, b: seq<real>, root: real -> real)
    requires IsSqrt(root) && (SumSquares(a) == 0.0 || SumSquares(b) == 0.0)
    ensures Cosine(a, b, root) == 0.0
  {
    if SumSquares(a) == 0.0 {
      ZeroRoot(root(SumSquares(a)));
    } else {
      ZeroRoot(root(SumSquares(b)));
    }
  }

  lemma SameByProduct(x: real, y: real, n: real)
    requires n != 0.0 && x * n == y * n
    ensures x == y
  {
    assert (x - y) * n == 0.0;
    if x - y != 0.0 {
      NonZeroProduct(x - y, n);
    }
  }

  lemma Regroup(x: real, k: real, m: real, n: real)
    ensures x * ((k * m) * n) == (x * k) * (m * n)
    ensures x * k * (m * n) == k * (x * (m * n))
  {
    assert (k * m) * n == k * (m * n);
    assert x * (k * (m * n)) == (x * k) * (m * n);
    assert (x * k) * (m * n) == k * (x * (m * n));
  }

  lemma ScaledNorm(k: real, a: seq<real>, root: real -> real)
    requires IsSqrt(root) && k > 0.0
    ensures SumSquares(a) == 0.0 ==> SumSquares(Scaled(k, a)) == 0.0
    ensures SumSquares(a) != 0.0 ==>
              && root(SumSquares(a)) != 0.0 && SumSquares(Scaled(k, a)) != 0.0
              && root(SumSquares(Scaled(k, a))) == k * root(SumSquares(a))
  {
    SquaresScale(k, a);
    SquaresGrow(a, 0, |a|);
    RootScales(k, SumSquares(a), SumSquares(Scaled(k, a)), root);
  }

  /** The similarity is about direction only: stretching a vector does not change it. */
  lemma CosineIgnoresLength(k: real, a: seq<real>, b: seq<real>, root: real -> real)
    requires IsSqrt(root) && k > 0.0
    ensures Cosine(Scaled(k, a), b, root) == Cosine(a, b, root)
  {
    if SumSquares(a) == 0.0 || SumSquares(b) == 0.0 {
      ScaledNorm(k, a, root);
      ZeroNorm(a, b, root);
      ZeroNorm(Scaled(k, a), b, root);
    } else {
      NonZeroIgnoresLength(k, a, b, root);
    }
  }

  lemma NonZeroIgnoresLength(k: real, a: seq<real>, b: seq<real>, root: real -> real)
    requires IsSqrt(root) && k > 0.0 && SumSquares(a) != 0.0 && SumSquares(b) != 0.0
    ensures Cosine(Scaled(k, a), b, root) == Cosine(a, b, root)
  {
    var d, m, n := Dot(a, b, Shorter(a, b)), root(SumSquares(a)), root(SumSquares(b));
    ScaledNorm(k, a, root);
    NonZeroNorm(b, root);
    DotScales(k, a, b, Shorter(a, b));
    CosineTimesNorms(a, b, root);
    CosineTimesNorms(Scaled(k, a), b, root);
    SameQuotient(k, d, m, root(SumSquares(Scaled(k, a))), n, Cosine(a, b, root), Cosine(Scaled(k, a), b, root));
  }

  lemma NonZeroNorm(b: seq<real>, root: real -> real)
    requires IsSqrt(root) && SumSquares(b) != 0.0
    ensures root(SumSquares(b)) != 0.0
  {
    SquaresGrow(b, 0, |b|);
    RootOfPositive(SumSquares(b), root(SumSquares(b)));
  }

  lemma SameQuotient(k: real, d: real, m: real, km: real, n: real, x: real, y: real)
    requires k != 0.0 && m != 0.0 && n != 0.0 && km == k * m
    requires x * (m * n) == d && y * (km * n) == k * d
    ensures x == y
  {
    NonZeroProduct(m, n);
    NonZeroProduct(k, m * n);
    Regroup(y, k, m, n);
    assert k * (y * (m * n)) == k * (x * (m * n));
    SameByProduct(y * (m * n), x * (m * n), k);
    SameByProduct(y, x, m * n);
  }
}
