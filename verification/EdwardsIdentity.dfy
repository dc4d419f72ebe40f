/** The polynomial heart of twisted Edwards addition, over any modulus and any coefficients a, dd. */
module EdwardsIdentity {
  import opened Numbers

  /** a·n1² + n2² is the product of the two input norms. */
  lemma NormSum(a: int, x: int, y: int, u: int, v: int)
    ensures a * (x * v + y * u) * (x * v + y * u) + (y * v - a * (x * u)) * (y * v - a * (x * u))
         == (a * x * x + y * y) * (a * u * u + v * v)
  {
    FourSquares(a, x * v, y * u, y * v, x * u);
    Difference(-a, x, y, u, v);
  }

  lemma FourSquares(a: int, xv: int, yu: int, yv: int, xu: int)
    requires xv * yu == yv * xu
    ensures a * (xv + yu) * (xv + yu) + (yv - a * xu) * (yv - a * xu)
         == yv * yv + a * (yu * yu) + a * (xv * xv) + a * a * (xu * xu)
  {
    ScaledSquare(a, xv, yu);
    SquaredDifference(a, yv, xu);
  }

  lemma NormDifference(a: int, x: int, y: int, u: int, v: int)
    ensures a * (x * v + y * u) * (x * v + y * u) - (y * v - a * (x * u)) * (y * v - a * (x * u))
         == 4 * a * ((x * y) * (u * v)) - (y * y - a * x * x) * (v * v - a * u * u)
  {
    FourProducts(a, x * v, y * u, y * v, x * u, (x * y) * (u * v));
    Difference(a, x, y, u, v);
  }

  lemma FourProducts(a: int, xv: int, yu: int, yv: int, xu: int, k: int)
    requires xv * yu == k && yv * xu == k
    ensures a * (xv + yu) * (xv + yu) - (yv - a * xu) * (yv - a * xu)
         == 4 * a * k - (yv * yv - a * (yu * yu) - a * (xv * xv) + a * a * (xu * xu))
  {
    ScaledSquare(a, xv, yu);
    SquaredDifference(a, yv, xu);
  }

  lemma ScaledSquare(a: int, s: int, t: int)
    ensures a * (s + t) * (s + t) == a * (s * s) + a * (t * t) + 2 * a * (s * t)
  {
  }

  lemma SquaredDifference(a: int, s: int, t: int)
    ensures (s - a * t) * (s - a * t) == s * s - 2 * a * (s * t) + a * a * (t * t)
  {
  }

  lemma Difference(a: int, x: int, y: int, u: int, v: int)
    ensures (y * y - a * x * x) * (v * v - a * u * u)
        == (y * v) * (y * v) - a * ((y * u) * (y * u)) - a * ((x * v) * (x * v)) + a * a * ((x * u) * (x * u))
  {
    Expand(a, x * x, y * y, u * u, v * v);
    assert a * x * x == a * (x * x) && a * u * u == a * (u * u);
    Regroup(y, v, y, v);
    Regroup(y, u, y, u);
    Regroup(x, v, x, v);
    Regroup(x, u, x, u);
  }

  lemma Expand(a: int, xx: int, yy: int, uu: int, vv: int)
    ensures (yy - a * xx) * (vv - a * uu) == yy * vv - a * (yy * uu) - a * (xx * vv) + a * a * (xx * uu)
  {
  }

  lemma Regroup(x: int, y: int, u: int, v: int)
    ensures (x * u) * (y * v) == (x * y) * (u * v)
  {
  }

  lemma NumeratorProduct(a: int, x: int, y: int, u: int, v: int)
    ensures (x * v + y * u) * (y * v - a * (x * u))
         == (x * y) * (v * v - a * u * u) + (u * v) * (y * y - a * x * x)
  {
    var e, f := x * y, u * v;
    CrossProduct(a, x * v, y * u, y * v, x * u);
    Shuffle(x, v, y, v);
    Shuffle(x, v, x, u);
    Shuffle(y, u, y, v);
    Shuffle(y, u, x, u);
    Distribute2(e, v * v, a, u);
    Distribute2(f, y * y, a, x);
  }

  lemma Shuffle(p: int, q: int, r: int, s: int)
    ensures (p * q) * (r * s) == (p * r) * (q * s) == (r * p) * (s * q) == (q * s) * (p * r)
  {
  }

  lemma CrossProduct(a: int, p: int, q: int, r: int, s: int)
    ensures (p + q) * (r - a * s) == p * r - a * (p * s) + q * r - a * (q * s)
  {
  }

  lemma Distribute2(e: int, p: int, a: int, q: int)
    ensures e * (p - a * q * q) == e * p - a * (e * (q * q))
  {
  }

  lemma DifferenceSquared(a: int, u: int, v: int)
    ensures (v * v - a * u * u) * (v * v - a * u * u)
         == (a * u * u + v * v) * (a * u * u + v * v) - 4 * a * ((u * v) * (u * v))
  {
  }

  /** With e = xy, f = uv, d = dd·e·f: clearing denominators leaves only the two norms p and q. */
  lemma Cleared(a: int, dd: int, e: int, f: int, w: int, z: int, p: int, q: int,
                m1: int, m2: int, prod: int, d: int)
    requires d == dd * (e * f)
    requires m1 + m2 == p * q
    requires m1 - m2 == 4 * a * (e * f) - z * w
    requires prod == e * w + f * z
    requires w * w == q * q - 4 * a * (f * f)
    requires z * z == p * p - 4 * a * (e * e)
    ensures m1 * ((1 - d) * (1 - d)) + m2 * ((1 + d) * (1 + d)) - (1 - d * d) * (1 - d * d) - dd * (prod * prod)
         == (1 + d * d) * (p * q) - (1 - d * d) * (1 - d * d) - dd * (e * e) * (q * q) - dd * (f * f) * (p * p)
  {
    NumeratorSquares(a, d, e * f, z * w, p * q, m1, m2);
    ProductSquared(a, dd, e, f, w, z, p, q);
    var c := e * f;
    assert dd * (c * c) == d * c && dd * (c * (z * w)) == d * (z * w);
  }

  lemma NumeratorSquares(a: int, d: int, k: int, zw: int, pq: int, m1: int, m2: int)
    requires m1 + m2 == pq && m1 - m2 == 4 * a * k - zw
    ensures m1 * ((1 - d) * (1 - d)) + m2 * ((1 + d) * (1 + d)) == (1 + d * d) * pq - 8 * a * (d * k) + 2 * (d * zw)
  {
    SplitSquares(m1, m2, d);
    var n := m1 - m2;
    assert d * n == d * (4 * a * k) - d * zw;
    assert d * (4 * a * k) == 4 * a * (d * k);
  }

  lemma SplitSquares(m1: int, m2: int, d: int)
    ensures m1 * ((1 - d) * (1 - d)) + m2 * ((1 + d) * (1 + d)) == (1 + d * d) * (m1 + m2) - 2 * (d * (m1 - m2))
  {
  }

  lemma ProductSquared(a: int, dd: int, e: int, f: int, w: int, z: int, p: int, q: int)
    requires w * w == q * q - 4 * a * (f * f)
    requires z * z == p * p - 4 * a * (e * e)
    ensures dd * ((e * w + f * z) * (e * w + f * z))
         == dd * (e * e) * (q * q) + dd * (f * f) * (p * p) - 8 * a * (dd * ((e * f) * (e * f)))
            + 2 * (dd * ((e * f) * (z * w)))
  {
    Square(e, w, f, z);
    Substitute(a, e, f, w * w, q * q);
    Substitute(a, f, e, z * z, p * p);
    assert (f * e) * (f * e) == (e * f) * (e * f);
    var k := (e * f) * (e * f);
    Collect(a, dd, (e * w + f * z) * (e * w + f * z), (e * e) * (q * q), (f * f) * (p * p), k, (e * f) * (z * w));
    assert dd * (e * e) * (q * q) == dd * ((e * e) * (q * q));
    assert dd * (f * f) * (p * p) == dd * ((f * f) * (p * p));
  }

  lemma Square(e: int, w: int, f: int, z: int)
    ensures (e * w + f * z) * (e * w + f * z) == (e * e) * (w * w) + (f * f) * (z * z) + 2 * ((e * f) * (z * w))
  {
  }

  lemma Substitute(a: int, e: int, f: int, w2: int, q2: int)
    requires w2 == q2 - 4 * a * (f * f)
    ensures (e * e) * w2 == (e * e) * q2 - 4 * a * ((e * f) * (e * f))
  {
    var c, g := e * e, f * f;
    assert c * (q2 - 4 * a * g) == c * q2 - 4 * a * (c * g);
    assert c * g == (e * f) * (e * f);
  }

  lemma Collect(a: int, dd: int, lhs: int, s: int, t: int, k: int, c: int)
    requires lhs == s + t - 8 * a * k + 2 * c
    ensures dd * lhs == dd * s + dd * t - 8 * a * (dd * k) + 2 * (dd * c)
  {
  }

  /** The cleared form is a multiple of the modulus as soon as both norms satisfy the curve equation. */
  lemma NormsVanish(s: int, t: int, dsq: int, p: int, q: int, m: int)
    requires m > 0 && dsq == s * t
    requires Congruent(p, 1 + s, m) && Congruent(q, 1 + t, m)
    ensures Congruent((1 + dsq) * (p * q) - (1 - dsq) * (1 - dsq) - s * (q * q) - t * (p * p), 0, m)
  {
    var p', q' := 1 + s, 1 + t;
    CongruentMul(p, p', q, q', m);
    CongruentMul(q, q', q, q', m);
    CongruentMul(p, p', p, p', m);
    CongruentScale(1 + dsq, p * q, p' * q', m);
    CongruentScale(s, q * q, q' * q', m);
    CongruentScale(t, p * p, p' * p', m);
    var c := (1 - dsq) * (1 - dsq);
    CongruentSub((1 + dsq) * (p * q), (1 + dsq) * (p' * q'), c, c, m);
    CongruentSub((1 + dsq) * (p * q) - c, (1 + dsq) * (p' * q') - c, s * (q * q), s * (q' * q'), m);
    CongruentSub((1 + dsq) * (p * q) - c - s * (q * q), (1 + dsq) * (p' * q') - c - s * (q' * q'),
                 t * (p * p), t * (p' * p'), m);
    Zero(s, t);
  }

  lemma Zero(s: int, t: int)
    ensures (1 + s * t) * ((1 + s) * (1 + t)) - (1 - s * t) * (1 - s * t)
            - s * ((1 + t) * (1 + t)) - t * ((1 + s) * (1 + s)) == 0
  {
  }

  /** Numerators n1, n2 and the shared product d of the addition formula, cleared of denominators. */
  lemma NumeratorsVanish(a: int, dd: int, x: int, y: int, u: int, v: int, n1: int, n2: int, d: int, m: int)
    requires m > 0
    requires n1 == x * v + y * u && n2 == y * v - a * (x * u) && d == dd * ((x * y) * (u * v))
    requires Congruent(a * x * x + y * y, 1 + dd * ((x * y) * (x * y)), m)
    requires Congruent(a * u * u + v * v, 1 + dd * ((u * v) * (u * v)), m)
    ensures Congruent(a * n1 * n1 * ((1 - d) * (1 - d)) + n2 * n2 * ((1 + d) * (1 + d))
                      - (1 - d * d) * (1 - d * d) - dd * ((n1 * n2) * (n1 * n2)), 0, m)
  {
    var e, f := x * y, u * v;
    var p, q := a * x * x + y * y, a * u * u + v * v;
    NormSum(a, x, y, u, v);
    NormDifference(a, x, y, u, v);
    NumeratorProduct(a, x, y, u, v);
    DifferenceSquared(a, u, v);
    DifferenceSquared(a, x, y);
    Cleared(a, dd, e, f, v * v - a * u * u, y * y - a * x * x, p, q, a * n1 * n1, n2 * n2, n1 * n2, d);
    SquareOfProduct(dd, e, f);
    NormsVanish(dd * (e * e), dd * (f * f), d * d, p, q, m);
  }

  lemma SquareOfProduct(dd: int, e: int, f: int)
    ensures (dd * (e * f)) * (dd * (e * f)) == (dd * (e * e)) * (dd * (f * f))
  {
  }

  /** Dividing the cleared form by the two denominators gives the curve equation of the sum. */
  lemma Divide(a: int, dd: int, n1: int, n2: int, d: int, i: int, j: int, m: int)
    requires m > 0
    requires Congruent(i * (1 + d), 1, m) && Congruent(j * (1 - d), 1, m)
    requires Congruent(a * n1 * n1 * ((1 - d) * (1 - d)) + n2 * n2 * ((1 + d) * (1 + d))
                       - (1 - d * d) * (1 - d * d) - dd * ((n1 * n2) * (n1 * n2)), 0, m)
    ensures Congruent(a * (n1 * i) * (n1 * i) + (n2 * j) * (n2 * j),
                      1 + dd * (((n1 * i) * (n2 * j)) * ((n1 * i) * (n2 * j))), m)
  {
    var u, v := i * (1 + d), j * (1 - d);
    var t1, t2 := a * (n1 * i) * (n1 * i), (n2 * j) * (n2 * j);
    var t4 := dd * (((n1 * i) * (n2 * j)) * ((n1 * i) * (n2 * j)));
    var ij := (i * i) * (j * j);
    var f := a * n1 * n1 * ((1 - d) * (1 - d)) + n2 * n2 * ((1 + d) * (1 + d))
             - (1 - d * d) * (1 - d * d) - dd * ((n1 * n2) * (n1 * n2));
    ScaledForm(a, dd, n1, n2, d, i, j);
    assert ij * f == t1 * (v * v) + t2 * (u * u) - (u * v) * (u * v) - t4;
    CongruentScale(ij, f, 0, m);
    CongruentMul(u, 1, u, 1, m);
    CongruentMul(v, 1, v, 1, m);
    CongruentMul(u, 1, v, 1, m);
    CongruentMul(u * v, 1, u * v, 1, m);
    CongruentScale(t1, v * v, 1, m);
    CongruentScale(t2, u * u, 1, m);
    CongruentAdd(t1 * (v * v), t1, t2 * (u * u), t2, m);
    CongruentSub(t1 * (v * v) + t2 * (u * u), t1 + t2, (u * v) * (u * v), 1, m);
    CongruentSub(t1 * (v * v) + t2 * (u * u) - (u * v) * (u * v), t1 + t2 - 1, t4, t4, m);
    CongruentAdd(t1 + t2 - 1 - t4, 0, 1 + t4, 1 + t4, m);
  }

  lemma ScaledForm(a: int, dd: int, n1: int, n2: int, d: int, i: int, j: int)
    ensures ((i * i) * (j * j)) * (a * n1 * n1 * ((1 - d) * (1 - d)) + n2 * n2 * ((1 + d) * (1 + d))
                                   - (1 - d * d) * (1 - d * d) - dd * ((n1 * n2) * (n1 * n2)))
         == a * (n1 * i) * (n1 * i) * ((j * (1 - d)) * (j * (1 - d)))
            + (n2 * j) * (n2 * j) * ((i * (1 + d)) * (i * (1 + d)))
            - ((i * (1 + d)) * (j * (1 - d))) * ((i * (1 + d)) * (j * (1 - d)))
            - dd * (((n1 * i) * (n2 * j)) * ((n1 * i) * (n2 * j)))
  {
    var g, h := 1 + d, 1 - d;
    Factor(a * n1 * n1, i, j, h);
    Factor(n2 * n2, j, i, g);
    FourFactor(i, j, g, h);
    FourFactor(i, j, n1, n2);
    assert g * h == 1 - d * d;
    var ij := (i * i) * (j * j);
    assert (j * j) * (i * i) == ij;
    Distribute(ij, a * n1 * n1 * (h * h), n2 * n2 * (g * g), (g * h) * (g * h), dd * ((n1 * n2) * (n1 * n2)));
    assert ij * (dd * ((n1 * n2) * (n1 * n2))) == dd * (ij * ((n1 * n2) * (n1 * n2)));
    assert a * n1 * n1 * (i * i) == a * (n1 * i) * (n1 * i);
    assert n2 * n2 * (j * j) == (n2 * j) * (n2 * j);
    assert (i * n1) * (j * n2) == (n1 * i) * (n2 * j);
  }

  lemma Factor(c: int, i: int, j: int, h: int)
    ensures ((i * i) * (j * j)) * (c * (h * h)) == c * (i * i) * ((j * h) * (j * h))
  {
  }

  lemma FourFactor(i: int, j: int, g: int, h: int)
    ensures ((i * i) * (j * j)) * ((g * h) * (g * h)) == ((i * g) * (j * h)) * ((i * g) * (j * h))
  {
  }

  lemma Distribute(k: int, r: int, s: int, t: int, w: int)
    ensures k * (r + s - t - w) == k * r + k * s - k * t - k * w
  {
  }
}
