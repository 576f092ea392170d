/** The similarity of two embedding vectors (ma_ateco_retrieval.go), over reals. */
module Cosine {

  /******* The three sums *******/

  function Dot(a: seq<real>, b: seq<real>): real
    requires |a| == |b|
  {
    if a == [] then 0.0
    else
      var last := |a| - 1;
      Dot(a[..last], b[..last]) + a[last] * b[last]
  }

  function Scale(c: real, a: seq<real>): (r: seq<real>)
    ensures |r| == |a| && forall i :: 0 <= i < |a| ==> r[i] == c * a[i]
  {
    seq(|a|, i requires 0 <= i < |a| => c * a[i])
  }

  ghost predicate IsZero(a: seq<real>) { forall i :: 0 <= i < |a| ==> a[i] == 0.0 }

  lemma {:induction false} SquareNonNegative(x: real)
    ensures x * x >= 0.0
  {
  }

  lemma {:induction false} ProductPositive(x: real, y: real)
    requires x > 0.0 && y > 0.0
    ensures x * y > 0.0
  {
  }

  lemma {:induction false} PositiveProduct(x: real, y: real, z: real)
    requires x > 0.0 && y > 0.0 && z == x * y
    ensures z > 0.0
  {
  }

  lemma {:induction false} SquareSign(x: real, y: real)
    requires y == x * x
    ensures y >= 0.0 && (y == 0.0 <==> x == 0.0)
  {
    if x > 0.0 { PositiveProduct(x, x, y); } else if x < 0.0 { PositiveProduct(-x, -x, y); }
  }

  lemma {:induction false} NormStep(p: real, x: real, p': real)
    requires p >= 0.0 && p' == p + x * x
    ensures p' >= 0.0 && (p' == 0.0 <==> p == 0.0 && x == 0.0)
  {
    SquareSign(x, p' - p);
  }

  lemma {:induction false} DotLast(a: seq<real>, b: seq<real>)
    requires |a| == |b| > 0
    ensures Dot(a, b) == Dot(a[..|a| - 1], b[..|a| - 1]) + a[|a| - 1] * b[|a| - 1]
  {
  }

  // The squared norm is nonnegative, and zero only for the zero vector.
  lemma {:induction false} NormNonNegative(a: seq<real>)
    ensures Dot(a, a) >= 0.0
    ensures Dot(a, a) == 0.0 <==> IsZero(a)
  {
    if a != [] {
      var init, x := a[..|a| - 1], a[|a| - 1];
      NormNonNegative(init);
      DotLast(a, a);
      assert IsZero(a) <==> IsZero(init) && x == 0.0 by { assert a == init + [x]; }
      hide Dot, IsZero;
      NormStep(Dot(init, init), x, Dot(a, a));
    }
  }

  lemma {:induction false} DotSymmetric(a: seq<real>, b: seq<real>)
    requires |a| == |b|
    ensures Dot(a, b) == Dot(b, a)
  {
    if a != [] { DotSymmetric(a[..|a| - 1], b[..|b| - 1]); }
  }

  lemma {:induction false} DotScale(c: real, a: seq<real>, b: seq<real>)
    requires |a| == |b|
    ensures Dot(Scale(c, a), b) == c * Dot(a, b)
  {
    if a != [] {
      var last := |a| - 1;
      var s, t := Scale(c, a)[..last], Scale(c, a[..last]);
      assert s == t by {
        forall i | 0 <= i < last ensures s[i] == t[i] { assert a[..last][i] == a[i]; }
      }
      DotScale(c, a[..last], b[..last]);
      var d, x, y := Dot(a[..last], b[..last]), a[last], b[last];
      assert c * x * y == c * (x * y);
      assert c * (d + x * y) == c * d + c * (x * y);
    }
  }

  /******* Cauchy and Schwarz *******/

  function Quadratic(t: real, p: real, q: real, r: real): real { t * t * p - 2.0 * t * q + r }

  // The sum of (t x - y)^2 over the vectors
  lemma {:induction false} QuadraticForm(t: real, a: seq<real>, b: seq<real>)
    requires |a| == |b|
    ensures Quadratic(t, Dot(a, a), Dot(a, b), Dot(b, b)) >= 0.0
  {
    if a != [] {
      hide Quadratic;
      var last := |a| - 1;
      QuadraticForm(t, a[..last], b[..last]);
      DotLast(a, a);
      DotLast(a, b);
      DotLast(b, b);
      hide Dot;
      var p, q, r := Dot(a[..last], a[..last]), Dot(a[..last], b[..last]), Dot(b[..last], b[..last]);
      QuadraticStep(t, p, q, r, a[last], b[last], Dot(a, a), Dot(a, b), Dot(b, b));
    }
  }

  lemma {:induction false} QuadraticStep(t: real, p: real, q: real, r: real, x: real, y: real, p': real, q': real,
      r': real)
    requires Quadratic(t, p, q, r) >= 0.0
    requires p' == p + x * x && q' == q + x * y && r' == r + y * y
    ensures Quadratic(t, p', q', r') >= 0.0
  {
    SquareNonNegative(t * x - y);
    var z := (t * x - y) * (t * x - y);
    assert z == t * t * (x * x) - 2.0 * t * (x * y) + y * y;
    assert Quadratic(t, p', q', r') == Quadratic(t, p, q, r) + z;
  }

  // The square of the dot product never exceeds the product of the squared norms.
  lemma {:induction false} CauchySchwarz(a: seq<real>, b: seq<real>)
    requires |a| == |b|
    ensures Dot(a, b) * Dot(a, b) <= Dot(a, a) * Dot(b, b)
  {
    var p, q, r := Dot(a, a), Dot(a, b), Dot(b, b);
    NormNonNegative(a);
    if p == 0.0 {
      ZeroDot(a, b);
    } else {
      var t := q / p;
      assert t * p == q;
      QuadraticForm(t, a, b);
      Discriminant(p, q, r, t);
    }
  }

  lemma {:induction false} Discriminant(p: real, q: real, r: real, t: real)
    requires p > 0.0 && t * p == q && Quadratic(t, p, q, r) >= 0.0
    ensures q * q <= p * r
  {
    assert t * t * p == t * q;
    assert r - t * q >= 0.0;
    assert p * (r - t * q) >= 0.0;
    assert p * (t * q) == q * q;
    assert p * (r - t * q) == p * r - p * (t * q);
  }

  lemma {:induction false} ZeroDot(a: seq<real>, b: seq<real>)
    requires |a| == |b| && IsZero(a)
    ensures Dot(a, b) == 0.0
  {
    if a != [] { ZeroDot(a[..|a| - 1], b[..|b| - 1]); }
  }

  /******* The cosine *******/

  // sqrt is an exact square root on the nonnegative reals.
  ghost predicate IsSqrt(sqrt: real -> real) {
    forall x :: x >= 0.0 ==> sqrt(x) >= 0.0 && sqrt(x) * sqrt(x) == x
  }

  lemma {:induction false} DotStep(a: seq<real>, b: seq<real>, i: nat, next: real)
    requires i < |a| && i < |b| && next == Dot(a[..i], b[..i]) + a[i] * b[i]
    ensures next == Dot(a[..i + 1], b[..i + 1])
  {
    assert a[..i + 1][..i] == a[..i] && b[..i + 1][..i] == b[..i];
  }

  // kbCosine
  method KbCosine(a: seq<real>, b: seq<real>, sqrt: real -> real) returns (cosine: real)
    requires IsSqrt(sqrt)
    ensures cosine == CosineOf(a, b, sqrt)
  {
    if |a| != |b| { return 0.0; }
    var dot, na, nb := 0.0, 0.0, 0.0;
    assert Dot(a[..0], b[..0]) == Dot(a[..0], a[..0]) == Dot(b[..0], b[..0]) == 0.0;
    hide Dot, Quotient;
    var i := 0;
    while i < |a|
      invariant 0 <= i <= |a|
      invariant dot == Dot(a[..i], b[..i]) && na == Dot(a[..i], a[..i]) && nb == Dot(b[..i], b[..i])
    {
      var x, y := a[i], b[i];
      dot := dot + x * y;
      na := na + x * x;
      nb := nb + y * y;
      DotStep(a, b, i, dot);
      DotStep(a, a, i, na);
      DotStep(b, b, i, nb);
      i := i + 1;
    }
    assert a[..i] == a && b[..i] == b;
    if na == 0.0 || nb == 0.0 { return 0.0; }
    assert na == Dot(a, a) && nb == Dot(b, b) && dot == Dot(a, b);
    RootsPositive(a, b, sqrt);
    cosine := Quotient(dot, sqrt(na), sqrt(nb));
  }

  function Quotient(dot: real, u: real, v: real): real
    requires u * v != 0.0
  {
    dot / (u * v)
  }

  lemma {:induction false} RootsPositive(a: seq<real>, b: seq<real>, sqrt: real -> real)
    requires IsSqrt(sqrt) && Dot(a, a) != 0.0 && Dot(b, b) != 0.0
    ensures sqrt(Dot(a, a)) > 0.0 && sqrt(Dot(b, b)) > 0.0
    ensures sqrt(Dot(a, a)) * sqrt(Dot(b, b)) > 0.0
  {
    NormNonNegative(a);
    NormNonNegative(b);
    hide Dot;
    assert sqrt(Dot(a, a)) * sqrt(Dot(a, a)) == Dot(a, a);
    assert sqrt(Dot(b, b)) * sqrt(Dot(b, b)) == Dot(b, b);
    ProductPositive(sqrt(Dot(a, a)), sqrt(Dot(b, b)));
  }

  // Vectors of different length, and the zero vector, are similar to nothing.
  predicate Comparable(a: seq<real>, b: seq<real>) {
    |a| == |b| && Dot(a, a) != 0.0 && Dot(b, b) != 0.0
  }

  ghost function CosineOf(a: seq<real>, b: seq<real>, sqrt: real -> real): real
    requires IsSqrt(sqrt)
  {
    if Comparable(a, b) then
      RootsPositive(a, b, sqrt);
      Quotient(Dot(a, b), sqrt(Dot(a, a)), sqrt(Dot(b, b)))
    else 0.0
  }

  // Without the square roots: the sign is the dot product's and c^2 |a|^2 |b|^2 = (a.b)^2. These two
  // facts determine the cosine.
  ghost predicate CosineIs(c: real, dot: real, norms: real) {
    && c * c * norms == dot * dot
    && (dot > 0.0 <==> c > 0.0) && (dot < 0.0 <==> c < 0.0)
  }

  lemma {:induction false} CosineSquared(a: seq<real>, b: seq<real>, sqrt: real -> real, norms: real)
    requires IsSqrt(sqrt) && Comparable(a, b) && norms == Dot(a, a) * Dot(b, b)
    ensures CosineIs(CosineOf(a, b, sqrt), Dot(a, b), norms)
  {
    hide Dot;
    NormNonNegative(a);
    NormNonNegative(b);
    RootsPositive(a, b, sqrt);
    var u, v := sqrt(Dot(a, a)), sqrt(Dot(b, b));
    QuotientSquared(CosineOf(a, b, sqrt), u, v, Dot(a, b), Dot(a, a), Dot(b, b), norms);
  }

  lemma {:induction false} QuotientSquared(c: real, u: real, v: real, dot: real, na: real, nb: real, norms: real)
    requires u * v > 0.0 && c == dot / (u * v)
    requires u * u == na && v * v == nb && norms == na * nb
    ensures CosineIs(c, dot, norms)
  {
    var w := u * v;
    assert c * w == dot;
    SignOfProduct(c, w);
    assert w * w == (u * u) * (v * v);
    assert w * w == norms;
    assert (c * w) * (c * w) == (c * c) * (w * w);
    assert c * c * norms == dot * dot;
  }

  lemma {:induction false} SignOfProduct(c: real, w: real)
    requires w > 0.0
    ensures (c * w > 0.0 <==> c > 0.0) && (c * w < 0.0 <==> c < 0.0)
  {
    if c > 0.0 { ProductPositive(c, w); }
    if c < 0.0 { ProductPositive(-c, w); assert (-c) * w == -(c * w); }
  }

  // The exact cosine lies between -1 and 1.
  lemma {:induction false} CosineBounded(a: seq<real>, b: seq<real>, sqrt: real -> real)
    requires IsSqrt(sqrt)
    ensures -1.0 <= CosineOf(a, b, sqrt) <= 1.0
  {
    hide Dot;
    if Comparable(a, b) {
      var c := CosineOf(a, b, sqrt);
      var m := Dot(a, a) * Dot(b, b);
      CosineSquared(a, b, sqrt, m);
      CauchySchwarz(a, b);
      NormNonNegative(a);
      NormNonNegative(b);
      ProductPositive(Dot(a, a), Dot(b, b));
      hide CosineIs, CosineOf;
      CosineIsBounded(c, Dot(a, b), m);
    }
  }

  lemma {:induction false} CosineIsBounded(c: real, dot: real, norms: real)
    requires CosineIs(c, dot, norms) && norms > 0.0 && dot * dot <= norms
    ensures -1.0 <= c <= 1.0
  {
    AtMostOne(c, norms);
  }

  lemma {:induction false} ProductMonotone(x: real, y: real, m: real)
    requires x < y && m > 0.0
    ensures x * m < y * m
  {
    ProductPositive(y - x, m);
    assert (y - x) * m == y * m - x * m;
  }

  lemma {:induction false} SquareAboveOne(c: real)
    requires c > 1.0 || c < -1.0
    ensures c * c > 1.0
  {
    if c > 1.0 { ProductMonotone(1.0, c, c); } else { ProductMonotone(1.0, -c, -c); assert (-c) * (-c) == c * c; }
  }

  lemma {:induction false} AtMostOne(c: real, m: real)
    requires m > 0.0 && c * c * m <= m
    ensures -1.0 <= c <= 1.0
  {
    if c > 1.0 || c < -1.0 {
      SquareAboveOne(c);
      ProductMonotone(1.0, c * c, m);
      assert false;
    }
  }

  lemma {:induction false} Cancel(x: real, y: real, m: real)
    requires m > 0.0 && x * m == y * m
    ensures x == y
  {
    if x < y { ProductMonotone(x, y, m); }
    if y < x { ProductMonotone(y, x, m); }
  }

  lemma {:induction false} SquareInjective(c: real, d: real, m: real)
    requires m > 0.0 && c * c * m == d * d * m
    requires (c > 0.0 <==> d > 0.0) && (c < 0.0 <==> d < 0.0)
    ensures c == d
  {
    Cancel(c * c, d * d, m);
    assert (c - d) * (c + d) == c * c - d * d;
    if c - d != 0.0 && c + d != 0.0 { NonzeroProduct(c - d, c + d); }
  }

  lemma {:induction false} NonzeroProduct(x: real, y: real)
    requires x != 0.0 && y != 0.0
    ensures x * y != 0.0
  {
    var z := x * y;
    assert z / y == x;
  }

  // A positive factor on a vector does not change the cosine, so unnormalized vectors compare alike.
  lemma {:induction false} CosineScales(k: real, a: seq<real>, b: seq<real>, sqrt: real -> real)
    requires IsSqrt(sqrt) && k > 0.0
    ensures CosineOf(Scale(k, a), b, sqrt) == CosineOf(a, b, sqrt)
    ensures CosineOf(b, Scale(k, a), sqrt) == CosineOf(b, a, sqrt)
  {
    hide Dot;
    CosineSymmetric(a, b, sqrt);
    CosineSymmetric(Scale(k, a), b, sqrt);
    if |a| == |b| {
      var p, q, r := Dot(a, a), Dot(a, b), Dot(b, b);
      var s := Scale(k, a);
      DotScale(k, a, b);
      DotScale(k, a, a);
      DotSymmetric(a, s);
      DotScale(k, a, s);
      assert Dot(s, s) == k * (k * p);
      ProductPositive(k, k);
      assert k * (k * p) == (k * k) * p;
      NormNonNegative(a);
      NormNonNegative(b);
      if p != 0.0 && r != 0.0 {
        NonzeroProduct(k * k, p);
        var c, d := CosineOf(a, b, sqrt), CosineOf(s, b, sqrt);
        var m, m' := p * r, (k * (k * p)) * r;
        CosineSquared(a, b, sqrt, m);
        CosineSquared(s, b, sqrt, m');
        SignOfProduct(q, k);
        ProductPositive(p, r);
        ProductPositive(k * k, m);
        ScaledSquares(c, d, k, m, m', q, Dot(s, b));
        SquareInjective(c, d, m');
      }
    }
  }

  lemma {:induction false} ScaledSquares(c: real, d: real, k: real, m: real, m': real, q: real, q': real)
    requires c * c * m == q * q && d * d * m' == q' * q'
    requires m' == (k * k) * m && q' == k * q
    ensures c * c * m' == d * d * m'
  {
    var kk, cc := k * k, c * c;
    assert cc * m' == kk * (cc * m);
    assert q' * q' == kk * (q * q);
  }

  lemma {:induction false} CosineSymmetric(a: seq<real>, b: seq<real>, sqrt: real -> real)
    requires IsSqrt(sqrt)
    ensures CosineOf(a, b, sqrt) == CosineOf(b, a, sqrt)
  {
    hide Dot;
    if Comparable(a, b) { DotSymmetric(a, b); }
  }
}
