/** Baby Jubjub point addition as the browser and the Go demo compute it. The formulas are stated over an
    arbitrary modulus; the programs run them at `FIELD`. */
module Curve {
  import opened Wrappers
  import opened Numbers
  import opened ModularInverse
  import opened EdwardsIdentity

  const A: int := 168700
  const D: int := 168696

  datatype Point = Point(x: int, y: int)

  const NEUTRAL := Point(0, 1)

  ghost predicate OnCurve(p: Point, m: Modulus) {
    Congruent(A * p.x * p.x + p.y * p.y, 1 + D * ((p.x * p.y) * (p.x * p.y)), m)
  }

  predicate Reduced(p: Point, m: Modulus) {
    0 <= p.x < m && 0 <= p.y < m
  }

  /** `pointAdd`; `None` is the thrown "Invalid curve denominator". */
  ghost function Sum(p: Point, q: Point, m: Modulus): (r: Option<Point>)
    ensures r.Some? ==> Reduced(r.value, m)
  {
    Fractions(p.x * q.y + p.y * q.x, p.y * q.y - A * (p.x * q.x), D * ((p.x * q.x) * (p.y * q.y)), m)
  }

  /** (xNum / (1 + d), yNum / (1 - d)) in the field. */
  ghost function Fractions(xNum: int, yNum: int, product: int, m: Modulus): (r: Option<Point>)
    ensures r.Some? ==> Reduced(r.value, m)
  {
    var d := Mod(product, m);
    var i, j := Inverse(1 + d, m), Inverse(1 - d, m);
    if i.None? || j.None? then None else
    Some(Point(Mod(xNum * i.value, m), Mod(yNum * j.value, m)))
  }

  method PointAdd(p: Point, q: Point, m: Modulus) returns (r: Option<Point>)
    ensures r == Sum(p, q, m)
  {
    var d := Mod(D * ((p.x * q.x) * (p.y * q.y)), m);
    var i := ComputeInverse(1 + d, m);
    if i.None? { return None; }
    var j := ComputeInverse(1 - d, m);
    if j.None? { return None; }
    return Some(Point(Mod((p.x * q.y + p.y * q.x) * i.value, m), Mod((p.y * q.y - A * (p.x * q.x)) * j.value, m)));
  }

  /** Whenever the addition returns on two curve points, its result is a curve point. */
  lemma SumStaysOnCurve(p: Point, q: Point, m: Modulus)
    requires OnCurve(p, m) && OnCurve(q, m) && Sum(p, q, m).Some?
    ensures OnCurve(Sum(p, q, m).value, m)
  {
    var xNum, yNum := p.x * q.y + p.y * q.x, p.y * q.y - A * (p.x * q.x);
    var dr, i, j := FractionParts(xNum, yNum, D * ((p.x * q.x) * (p.y * q.y)), m);
    UnreducedOnCurve(p.x, p.y, q.x, q.y, dr, i, j, m);
    EquationModulo(xNum * i, yNum * j, Sum(p, q, m).value.x, Sum(p, q, m).value.y, m);
  }

  lemma FractionParts(xNum: int, yNum: int, product: int, m: Modulus) returns (d: int, i: int, j: int)
    requires Fractions(xNum, yNum, product, m).Some?
    ensures Congruent(product, d, m)
    ensures Congruent(i * (1 + d), 1, m) && Congruent(j * (1 - d), 1, m)
    ensures Congruent(xNum * i, Fractions(xNum, yNum, product, m).value.x, m)
    ensures Congruent(yNum * j, Fractions(xNum, yNum, product, m).value.y, m)
  {
    d := Mod(product, m);
    i, j := Inverse(1 + d, m).value, Inverse(1 - d, m).value;
    Reduce(product, m);
    Reduce(xNum * i, m);
    Reduce(yNum * j, m);
  }

  /** The addition law itself: the addition returns exactly when both denominators are invertible, and then the one
      reduced point (x, y) with (1 + d)·x = x1·y2 + y1·x2 and (1 - d)·y = y1·y2 - A·x1·x2, for d = D·x1·x2·y1·y2. */
  lemma SumExact(p: Point, q: Point, m: Modulus)
    ensures var d := D * ((p.x * q.x) * (p.y * q.y));
            && (Sum(p, q, m).Some? <==> Inverse(1 + d, m).Some? && Inverse(1 - d, m).Some?)
            && forall r: Point :: Sum(p, q, m) == Some(r) <==>
                 && Inverse(1 + d, m).Some? && Inverse(1 - d, m).Some? && Reduced(r, m)
                 && Congruent((1 + d) * r.x, p.x * q.y + p.y * q.x, m)
                 && Congruent((1 - d) * r.y, p.y * q.y - A * (p.x * q.x), m)
  {
    var d := D * ((p.x * q.x) * (p.y * q.y));
    FractionsExact(p.x * q.y + p.y * q.x, p.y * q.y - A * (p.x * q.x), d, m);
  }

  lemma FractionsExact(xNum: int, yNum: int, d: int, m: Modulus)
    ensures Fractions(xNum, yNum, d, m).Some? <==> Inverse(1 + d, m).Some? && Inverse(1 - d, m).Some?
    ensures forall r: Point :: Fractions(xNum, yNum, d, m) == Some(r) <==>
              && Inverse(1 + d, m).Some? && Inverse(1 - d, m).Some? && Reduced(r, m)
              && Congruent((1 + d) * r.x, xNum, m) && Congruent((1 - d) * r.y, yNum, m)
  {
    var e := Mod(d, m);
    ReducedDenominators(d, e, m);
    if Inverse(1 + d, m).Some? && Inverse(1 - d, m).Some? {
      var i, j := Inverse(1 + d, m).value, Inverse(1 - d, m).value;
      forall r: Point
        ensures Fractions(xNum, yNum, d, m) == Some(r) <==>
                Reduced(r, m) && Congruent((1 + d) * r.x, xNum, m) && Congruent((1 - d) * r.y, yNum, m)
      {
        QuotientExact(xNum, 1 + d, i, r.x, m);
        QuotientExact(yNum, 1 - d, j, r.y, m);
      }
    }
  }

  lemma ReducedDenominators(d: int, e: int, m: Modulus)
    requires e == Mod(d, m)
    ensures Inverse(1 + e, m) == Inverse(1 + d, m) && Inverse(1 - e, m) == Inverse(1 - d, m)
  {
    Reduce(d, m);
    CongruentAdd(1, 1, d, e, m);
    CongruentSub(1, 1, d, e, m);
    InverseOfCongruent(1 + d, 1 + e, m);
    InverseOfCongruent(1 - d, 1 - e, m);
  }

  /** A numerator times the inverse is the only reduced solution of the division. */
  lemma QuotientExact(n: int, d: int, i: int, x: int, m: Modulus)
    requires Congruent(i * d, 1, m)
    ensures x == Mod(n * i, m) <==> 0 <= x < m && Congruent(d * x, n, m)
  {
    hide Congruent;
    var y := Mod(n * i, m);
    Reduces(n * i, m);
    CongruentScale(d, y, n * i, m);
    CongruentScale(n, i * d, 1, m);
    assert d * (n * i) == n * (i * d);
    CongruentTrans(d * y, n * (i * d), n, m);
    if 0 <= x < m && Congruent(d * x, n, m) {
      CongruentScale(i, d * x, n, m);
      CongruentScale(x, i * d, 1, m);
      assert i * (d * x) == x * (i * d) && i * n == n * i;
      CongruentSymmetric(x * (i * d), x, m);
      CongruentTrans(x, x * (i * d), n * i, m);
      SameReduced(x, n * i, m);
    }
  }

  lemma SameReduced(x: int, n: int, m: Modulus)
    requires 0 <= x < m && Congruent(x, n, m)
    ensures x == Mod(n, m)
  {
    ResidueUnique(x, 0, x, m);
  }

  lemma Reduce(n: int, m: Modulus)
    ensures Congruent(n, Mod(n, m), m)
  {
    Reduces(n, m);
  }

  lemma UnreducedOnCurve(x: int, y: int, u: int, v: int, dr: int, i: int, j: int, m: Modulus)
    requires OnCurve(Point(x, y), m) && OnCurve(Point(u, v), m) && Congruent(D * ((x * u) * (y * v)), dr, m)
    requires Congruent(i * (1 + dr), 1, m) && Congruent(j * (1 - dr), 1, m)
    ensures OnCurve(Point((x * v + y * u) * i, (y * v - A * (x * u)) * j), m)
  {
    var d := D * ((x * y) * (u * v));
    Regroup(x, y, u, v);
    CongruentDenominators(d, dr, i, j, m);
    var n1, n2 := x * v + y * u, y * v - A * (x * u);
    NumeratorsVanish(A, D, x, y, u, v, n1, n2, d, m);
    Divide(A, D, n1, n2, d, i, j, m);
  }

  lemma CongruentDenominators(d: int, dr: int, i: int, j: int, m: int)
    requires m > 0 && Congruent(d, dr, m)
    requires Congruent(i * (1 + dr), 1, m) && Congruent(j * (1 - dr), 1, m)
    ensures Congruent(i * (1 + d), 1, m) && Congruent(j * (1 - d), 1, m)
  {
    CongruentAdd(1, 1, d, dr, m);
    CongruentSub(1, 1, d, dr, m);
    CongruentScale(i, 1 + d, 1 + dr, m);
    CongruentScale(j, 1 - d, 1 - dr, m);
  }

  /** Both sides of the curve equation depend on the residues of the coordinates only. */
  lemma EquationModulo(x: int, y: int, u: int, v: int, m: int)
    requires m > 0 && Congruent(x, u, m) && Congruent(y, v, m)
    ensures Congruent(A * x * x + y * y, A * u * u + v * v, m)
    ensures Congruent(1 + D * ((x * y) * (x * y)), 1 + D * ((u * v) * (u * v)), m)
  {
    CongruentMul(x, u, x, u, m);
    CongruentMul(y, v, y, v, m);
    CongruentMul(x, u, y, v, m);
    CongruentMul(x * y, u * v, x * y, u * v, m);
    CongruentScale(A, x * x, u * u, m);
    CongruentScale(D, (x * y) * (x * y), (u * v) * (u * v), m);
    assert A * x * x == A * (x * x) && A * u * u == A * (u * u);
    CongruentAdd(A * (x * x), A * (u * u), y * y, v * v, m);
    CongruentAdd(1, 1, D * ((x * y) * (x * y)), D * ((u * v) * (u * v)), m);
  }

  lemma SumCommutes(p: Point, q: Point, m: Modulus)
    ensures Sum(p, q, m) == Sum(q, p, m)
  {
    assert D * ((p.x * q.x) * (p.y * q.y)) == D * ((q.x * p.x) * (q.y * p.y));
    assert p.x * q.y + p.y * q.x == q.x * p.y + q.y * p.x;
    assert p.y * q.y - A * (p.x * q.x) == q.y * p.y - A * (q.x * p.x);
  }

  /** (0, 1) is neutral up to reduction, so exactly neutral on reduced points. */
  lemma NeutralElement(p: Point, m: Modulus)
    ensures OnCurve(NEUTRAL, m)
    ensures Sum(p, NEUTRAL, m) == Sum(NEUTRAL, p, m) == Some(Point(p.x % m, p.y % m))
    ensures Sum(p, NEUTRAL, m) == Some(p) <==> Reduced(p, m)
  {
    SumCommutes(p, NEUTRAL, m);
    SumWithNeutral(p, m);
    ReducedResidues(p, m);
  }

  lemma SumWithNeutral(p: Point, m: Modulus)
    ensures Sum(p, NEUTRAL, m) == Some(Point(p.x % m, p.y % m))
  {
    UnitDenominators(p.x, p.y, m);
    calc {
      Sum(p, NEUTRAL, m);
      Fractions(p.x * 1 + p.y * 0, p.y * 1 - A * (p.x * 0), D * ((p.x * 0) * (p.y * 1)), m);
      Fractions(p.x, p.y, 0, m);
    }
  }

  lemma ReducedResidues(p: Point, m: Modulus)
    ensures Point(p.x % m, p.y % m) == p <==> Reduced(p, m)
  {
  }

  lemma UnitDenominators(x: int, y: int, m: Modulus)
    ensures Fractions(x, y, 0, m) == Some(Point(x % m, y % m))
  {
    assert IsInverse(1, 1, m);
    InverseUnique(1, Inverse(1, m).value, 1, m);
  }

  /** `addPointsAffine`: neutral fast paths, then the same formula with a reduction at every step.
      `None` is the nil dereference that follows a failed ModInverse. */
  ghost function GoSum(a: Point, b: Point, m: Modulus): (r: Option<Point>)
  {
    if a == NEUTRAL then Some(b)
    else if b == NEUTRAL then Some(a)
    else GoSlowPath(a.x * b.x, a.y * b.y, a.x * b.y + a.y * b.x, m)
  }

  ghost function GoSlowPath(xx: int, yy: int, xNum: int, m: Modulus): (r: Option<Point>)
  {
    var x1x2, y1y2 := xx % m, yy % m;
    GoFractions(xNum % m, (y1y2 - A * x1x2) % m, (D * x1x2 * y1y2) % m, m)
  }

  ghost function GoFractions(xNum: int, yNum: int, d: int, m: Modulus): (r: Option<Point>)
  {
    var i, j := Inverse((1 + d) % m, m), Inverse((m - d + 1) % m, m);
    if i.None? || j.None? then None
    else Some(Point((xNum * i.value) % m, (yNum * j.value) % m))
  }

  /** The Go and browser additions give the same point (or both fail), except where a fast path
      hands back the other operand unreduced. */
  lemma GoSumAgrees(a: Point, b: Point, m: Modulus)
    ensures GoSum(a, b, m) == Sum(a, b, m) <==>
            (a == NEUTRAL ==> Reduced(b, m)) && (a != NEUTRAL && b == NEUTRAL ==> Reduced(a, m))
  {
    if a == NEUTRAL {
      NeutralElement(b, m);
    } else if b == NEUTRAL {
      NeutralElement(a, m);
    } else {
      SlowPathAgrees(a.x * b.x, a.y * b.y, a.x * b.y + a.y * b.x, m);
    }
  }

  lemma SlowPathAgrees(xx: int, yy: int, xNum: int, m: Modulus)
    ensures GoSlowPath(xx, yy, xNum, m) == Fractions(xNum, yy - A * xx, D * (xx * yy), m)
  {
    ReducedProduct(xx, yy, m);
    ReducedDifference(yy, xx, m);
    FractionsAgree(xNum, yy - A * xx, D * (xx * yy), m);
  }

  lemma FractionsAgree(xNum: int, yNum: int, product: int, m: Modulus)
    ensures GoFractions(xNum % m, yNum % m, product % m, m) == Fractions(xNum, yNum, product, m)
  {
    var d := Mod(product, m);
    DenominatorsAgree(d, m);
    if Inverse(1 + d, m).Some? && Inverse(1 - d, m).Some? {
      ReducedFactor(xNum, Inverse(1 + d, m).value, m);
      ReducedFactor(yNum, Inverse(1 - d, m).value, m);
    }
  }

  lemma DenominatorsAgree(d: int, m: Modulus)
    ensures Inverse((1 + d) % m, m) == Inverse(1 + d, m)
    ensures Inverse((m - d + 1) % m, m) == Inverse(1 - d, m)
  {
    CongruentBy(m - d + 1, 1 - d, m, 1);
    InverseOfCongruent(m - d + 1, 1 - d, m);
    InverseOfResidue(1 + d, m);
    InverseOfResidue(m - d + 1, m);
  }

  lemma ReducedFactor(n: int, i: int, m: Modulus)
    ensures ((n % m) * i) % m == Mod(n * i, m)
  {
    Reduces(n, m);
    CongruentScale(i, n % m, n, m);
    assert i * (n % m) == (n % m) * i && i * n == n * i;
  }

  lemma ReducedProduct(xx: int, yy: int, m: Modulus)
    ensures Congruent(D * (xx % m) * (yy % m), D * (xx * yy), m)
  {
    hide Congruent;
    var x, y := xx % m, yy % m;
    Reduces(xx, m);
    Reduces(yy, m);
    CongruentMul(x, xx, y, yy, m);
    CongruentScale(D, x * y, xx * yy, m);
    assert D * (x * y) == D * x * y;
  }

  lemma ReducedDifference(yy: int, xx: int, m: Modulus)
    ensures Congruent(yy % m - A * (xx % m), yy - A * xx, m)
  {
    hide Congruent;
    Reduces(xx, m);
    Reduces(yy, m);
    CongruentScale(A, xx % m, xx, m);
    CongruentSub(yy % m, yy, A * (xx % m), A * xx, m);
  }
}

/** The addition law is complete: it never throws on curve points, given a prime modulus above 2 in which A is
    a square and D is not. `RootOfA` gives the square root for `FIELD`. */
module CurveCompleteness {
  import opened Numbers
  import opened ModularInverse
  import opened Fermat
  import opened Curve

  /** A square root of A in the field. */
  const ROOT_A: int := 7214280148105020021932206872019688659210616427216992810330019057549499971851

  /** If D·e·f is ±1, then (c·x + ε·y)² = D·(x·y·(c·u + v))² for either root c of A. */
  lemma SquareRelation(c: int, eps: int, x: int, y: int, u: int, v: int, d: int, m: Modulus)
    requires Congruent(c * c, A, m) && (eps == 1 || eps == -1)
    requires OnCurve(Point(x, y), m) && OnCurve(Point(u, v), m)
    requires d == D * ((x * y) * (u * v)) && Congruent(d, eps, m)
    ensures Congruent((c * x + eps * y) * (c * x + eps * y),
                      D * (((x * y) * (c * u + v)) * ((x * y) * (c * u + v))), m)
  {
    var e, f := x * y, u * v;
    var s := D * (e * e);
    var mid := 1 + s + 2 * (c * e) * d;
    // left side
    CongruentScale(x * x, c * c, A, m);
    CongruentScale(2 * (c * e), d, eps, m);
    CongruentAdd((x * x) * (c * c), (x * x) * A, y * y, y * y, m);
    assert A * x * x + y * y == (x * x) * A + y * y;
    CongruentAdd((x * x) * (c * c) + y * y, 1 + s, 2 * (c * e) * eps, 2 * (c * e) * d, m);
    LeftSquare(c, eps, x, y);
    // right side
    CongruentScale(u * u, c * c, A, m);
    CongruentAdd((u * u) * (c * c), (u * u) * A, v * v, v * v, m);
    assert A * u * u + v * v == (u * u) * A + v * v;
    CongruentAdd((u * u) * (c * c) + v * v, 1 + D * (f * f), 2 * (c * f), 2 * (c * f), m);
    CongruentScale(s, (u * u) * (c * c) + v * v + 2 * (c * f), 1 + D * (f * f) + 2 * (c * f), m);
    CongruentMul(d, eps, d, eps, m);
    CongruentAdd(s + 2 * (c * e) * d, s + 2 * (c * e) * d, d * d, 1, m);
    RightSquare(c, e, u, v);
    RightExpansion(c, e, f, d);
  }

  lemma LeftSquare(c: int, eps: int, x: int, y: int)
    requires eps == 1 || eps == -1
    ensures (c * x + eps * y) * (c * x + eps * y) == (x * x) * (c * c) + y * y + 2 * (c * (x * y)) * eps
  {
  }

  lemma RightSquare(c: int, e: int, u: int, v: int)
    ensures D * ((e * (c * u + v)) * (e * (c * u + v)))
         == D * (e * e) * ((u * u) * (c * c) + v * v + 2 * (c * (u * v)))
  {
    assert (c * u + v) * (c * u + v) == (u * u) * (c * c) + v * v + 2 * (c * (u * v));
    Pull(e, c * u + v);
  }

  lemma RightExpansion(c: int, e: int, f: int, d: int)
    requires d == D * (e * f)
    ensures D * (e * e) * (1 + D * (f * f) + 2 * (c * f)) == D * (e * e) + 2 * (c * e) * d + d * d
  {
    Pull2(e, f);
    Pull3(c, e, f);
    Spread(D * (e * e), D * (f * f), 2 * (c * f));
  }

  lemma Pull(e: int, w: int)
    ensures D * ((e * w) * (e * w)) == D * (e * e) * (w * w)
  {
  }

  lemma Pull2(e: int, f: int)
    ensures D * (e * e) * (D * (f * f)) == (D * (e * f)) * (D * (e * f))
  {
  }

  lemma Pull3(c: int, e: int, f: int)
    ensures D * (e * e) * (2 * (c * f)) == 2 * (c * e) * (D * (e * f))
  {
  }

  lemma Spread(s: int, r: int, t: int)
    ensures s * (1 + r + t) == s + s * r + s * t
  {
  }

  /** l² = d·r² with r invertible makes d a square. */
  lemma QuotientIsRoot(l: int, r: int, k: int, d: int, m: int)
    requires m > 0 && Congruent(l * l, d * (r * r), m) && Congruent(k * r, 1, m)
    ensures Congruent((k * l) * (k * l), d, m)
  {
    CongruentScale(k * k, l * l, d * (r * r), m);
    CongruentMul(k * r, 1, k * r, 1, m);
    CongruentScale(d, (k * r) * (k * r), 1, m);
    assert (k * k) * (l * l) == (k * l) * (k * l);
    assert (k * k) * (d * (r * r)) == d * ((k * r) * (k * r));
  }

  /** D is not a square, so the right-hand factor of `SquareRelation` must vanish. */
  lemma FactorVanishes(c: int, eps: int, x: int, y: int, u: int, v: int, d: int, m: Modulus)
    requires Prime(m) && NonSquare(D, m)
    requires Congruent(c * c, A, m) && (eps == 1 || eps == -1)
    requires OnCurve(Point(x, y), m) && OnCurve(Point(u, v), m)
    requires d == D * ((x * y) * (u * v)) && Congruent(d, eps, m)
    ensures Congruent((x * y) * (c * u + v), 0, m)
  {
    var l, r := c * x + eps * y, (x * y) * (c * u + v);
    if Inverse(r, m).Some? {
      SquareRelation(c, eps, x, y, u, v, d, m);
      QuotientIsRoot(l, r, Inverse(r, m).value, D, m);
      assert false;
    }
    ZeroOrInvertible(r, m);
  }

  lemma RootOfA()
    ensures Congruent(ROOT_A * ROOT_A, A, FIELD)
  {
  }

  /** D·x·y·u·v is never ±1 on curve points. */
  lemma ProductIsNotUnit(c: int, eps: int, x: int, y: int, u: int, v: int, d: int, m: Modulus)
    requires m > 2 && Prime(m) && NonSquare(D, m) && Congruent(c * c, A, m) && (eps == 1 || eps == -1)
    requires OnCurve(Point(x, y), m) && OnCurve(Point(u, v), m)
    requires d == D * ((x * y) * (u * v))
    ensures !Congruent(d, eps, m)
  {
    if Congruent(d, eps, m) {
      assert (-c) * (-c) == c * c;
      FactorVanishes(c, eps, x, y, u, v, d, m);
      FactorVanishes(-c, eps, x, y, u, v, d, m);
      var e := x * y;
      CongruentAdd(e * (c * u + v), 0, e * (-c * u + v), 0, m);
      assert e * (c * u + v) + e * (-c * u + v) == 2 * (e * v);
      CongruentScale(D * u, 2 * (e * v), 0, m);
      assert D * u * (2 * (e * v)) == 2 * d;
      CongruentScale(2, d, eps, m);
      assert false;
    }
  }

  /** Completeness: two curve points always have a sum. */
  lemma SumAlwaysReturns(p: Point, q: Point, c: int, m: Modulus)
    requires m > 2 && Prime(m) && NonSquare(D, m) && Congruent(c * c, A, m)
    requires OnCurve(p, m) && OnCurve(q, m)
    ensures Sum(p, q, m).Some? && OnCurve(Sum(p, q, m).value, m)
  {
    hide Congruent, Inverse, OnCurve, Prime, NonSquare;
    var product := D * ((p.x * q.x) * (p.y * q.y));
    var d := D * ((p.x * p.y) * (q.x * q.y));
    EdwardsIdentity.Regroup(p.x, p.y, q.x, q.y);
    ProductIsNotUnit(c, 1, p.x, p.y, q.x, q.y, d, m);
    ProductIsNotUnit(c, -1, p.x, p.y, q.x, q.y, d, m);
    Curve.Reduce(product, m);
    DenominatorsInvert(d, Mod(product, m), m);
    SumStaysOnCurve(p, q, m);
  }

  lemma DenominatorsInvert(d: int, dr: int, m: Modulus)
    requires Prime(m) && Congruent(d, dr, m) && !Congruent(d, 1, m) && !Congruent(d, -1, m)
    ensures Inverse(1 + dr, m).Some? && Inverse(1 - dr, m).Some?
  {
    hide Inverse, Prime;
    ZeroOrInvertible(1 + dr, m);
    if Congruent(1 + dr, 0, m) {
      CongruentSub(1 + dr, 0, 1, 1, m);
    }
    ZeroOrInvertible(1 - dr, m);
    if Congruent(1 - dr, 0, m) {
      CongruentSub(1, 1, 1 - dr, 0, m);
    }
  }

  /** Completeness at a modulus where Euler's criterion certifies D: one exponentiation instead of a condition on all
      residues. */
  lemma SumReturnsByEuler(p: Point, q: Point, c: int, half: nat, m: Modulus)
    requires m > 2 && Prime(m) && m == 2 * half + 1 && Congruent(Power(D, half), -1, m) && Congruent(c * c, A, m)
    requires OnCurve(p, m) && OnCurve(q, m)
    ensures Sum(p, q, m).Some? && OnCurve(Sum(p, q, m).value, m)
  {
    hide Prime, Congruent, Power, OnCurve, Sum, NonSquare;
    NotASquare(D, half, m);
    SumAlwaysReturns(p, q, c, m);
  }
}
