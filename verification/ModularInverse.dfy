/** The extended-Euclid inverse modulo m. The curve code calls it at `FIELD`. */
module ModularInverse {
  import opened Wrappers
  import opened Numbers

  /** The BN254 scalar field, over which Baby Jubjub is defined. */
  const FIELD: int := 21888242871839275222246405745257275088548364400416034343698204186575808495617

  ghost predicate Divides(k: int, n: int)
    requires k > 0
  {
    n % k == 0
  }

  ghost predicate Coprime(n: int, m: int) {
    forall k :: k > 1 ==> !(Divides(k, n) && Divides(k, m))
  }

  ghost predicate IsInverse(k: int, n: int, m: Modulus) {
    0 <= k < m && Congruent(k * n, 1, m)
  }

  /** The reduced inverse of n, when there is one; `InverseUnique` says there is at most one. */
  ghost function Inverse(n: int, m: Modulus): (r: Option<int>)
    ensures r.Some? ==> IsInverse(r.value, n, m)
    ensures r.None? ==> forall k :: !IsInverse(k, n, m)
  {
    if exists k :: IsInverse(k, n, m) then
      var k :| IsInverse(k, n, m);
      Some(k)
    else None
  }

  /** Modulo any m, two reduced inverses of one number agree. */
  lemma InverseUnique(k: int, l: int, n: int, m: int)
    requires 0 <= k < m && 0 <= l < m && Congruent(k * n, 1, m) && Congruent(l * n, 1, m)
    ensures k == l
  {
    var a := Quotient(k * n, 1, m);
    var b := Quotient(l * n, 1, m);
    var e := l * a - k * b;
    assert k - l == k * (1 + b * m) - l * (1 + a * m) + e * m;
    assert k * (l * n) == l * (k * n);
    ResidueUnique(k, e, l, m);
    ResidueUnique(k, 0, k, m);
  }

  /** Congruent arguments have the same inverse. */
  lemma InverseOfCongruent(n: int, n': int, m: Modulus)
    requires Congruent(n, n', m)
    ensures Inverse(n, m) == Inverse(n', m)
  {
    forall k ensures IsInverse(k, n, m) == IsInverse(k, n', m) {
      CongruentScale(k, n, n', m);
    }
    if Inverse(n, m).Some? {
      assert IsInverse(Inverse(n, m).value, n', m);
      InverseUnique(Inverse(n, m).value, Inverse(n', m).value, n, m);
    }
  }

  lemma InverseOfResidue(n: int, m: Modulus)
    ensures Inverse(n % m, m) == Inverse(n, m)
  {
    ResidueOfResidue(n, m);
    InverseOfCongruent(n % m, n, m);
  }

  lemma DividesStep(k: int, a: int, b: int, q: int)
    requires k > 0
    ensures Divides(k, a) && Divides(k, b) <==> Divides(k, b) && Divides(k, a - q * b)
  {
    if Divides(k, b) {
      CongruentScale(q, b, 0, k);
      if Divides(k, a) {
        CongruentSub(a, 0, q * b, 0, k);
      } else if Divides(k, a - q * b) {
        CongruentAdd(a - q * b, 0, q * b, 0, k);
      }
    }
  }

  lemma DividesSelf(k: int)
    requires k > 0
    ensures Divides(k, k) && Divides(k, 0) && (Divides(k, 1) <==> k == 1)
  {
  }

  /** A common factor above 1 rules every inverse out. */
  lemma CommonFactorNoInverse(g: int, n: int, x: int, m: Modulus)
    requires g > 1 && Divides(g, n) && Divides(g, m)
    ensures !IsInverse(x, n, m)
  {
    if IsInverse(x, n, m) {
      var k := Quotient(x * n, 1, m);
      CongruentScale(x, n, 0, g);
      CongruentScale(k, m, 0, g);
      CongruentSub(x * n, 0, k * m, 0, g);
      ResidueUnique(1, 0, 1, g);
      assert false;
    }
  }

  lemma BezoutStep(n: int, a: int, b: int, x: int, y: int, q: int, m: Modulus)
    requires Congruent(x * n, a, m) && Congruent(y * n, b, m)
    ensures Congruent((x - q * y) * n, a - q * b, m)
  {
    CongruentScale(q, y * n, b, m);
    CongruentSub(x * n, a, q * (y * n), q * b, m);
    assert x * n - q * (y * n) == (x - q * y) * n;
  }

  lemma BezoutInverts(n: int, x: int, m: Modulus)
    requires Congruent(x * n, 1, m)
    ensures Inverse(n, m) == Some(Mod(x, m))
  {
    hide Congruent, Mod;
    Reduces(x, m);
    CongruentScale(n, Mod(x, m), x, m);
    assert n * Mod(x, m) == Mod(x, m) * n && n * x == x * n;
    CongruentTrans(Mod(x, m) * n, x * n, 1, m);
    assert IsInverse(Mod(x, m), n, m);
    InverseUnique(Mod(x, m), Inverse(n, m).value, n, m);
  }

  /** `inverse`: terminates on every integer, fails exactly on a common factor, otherwise inverts. */
  method ComputeInverse(n: int, m: Modulus) returns (r: Option<int>)
    ensures r == Inverse(n, m)
    ensures r.Some? <==> Coprime(n, m)
  {
    hide Congruent, Divides, Mod, Inverse;
    var a, b, x, y := Mod(n, m), m, 1, 0;
    Reduces(n, m);
    CongruentBy(0 * n, m, m, -1);
    assert Mod(n, m) == n - n / m * m;
    forall k | k > 0 ensures Divides(k, a) && Divides(k, b) <==> Divides(k, n) && Divides(k, m) {
      DividesStep(k, n, m, n / m);
    }
    while b != 0
      invariant a >= 0 && b >= 0 && a + b > 0
      invariant Congruent(x * n, a, m) && Congruent(y * n, b, m)
      invariant forall k :: k > 0 ==> (Divides(k, a) && Divides(k, b) <==> Divides(k, n) && Divides(k, m))
      decreases b
    {
      var q := a / b;
      BezoutStep(n, a, b, x, y, q, m);
      forall k | k > 0
        ensures Divides(k, b) && Divides(k, a - q * b) <==> Divides(k, n) && Divides(k, m)
      {
        DividesStep(k, a, b, q);
      }
      assert a - q * b == a % b;
      a, b := b, a - q * b;
      x, y := y, x - q * y;
    }
    if a != 1 {
      DividesSelf(a);
      forall k ensures !IsInverse(k, n, m) {
        CommonFactorNoInverse(a, n, k, m);
      }
      return None;
    }
    BezoutInverts(n, x, m);
    forall k | k > 1 ensures !(Divides(k, n) && Divides(k, m)) {
      DividesSelf(k);
    }
    return Some(Mod(x, m));
  }
}
