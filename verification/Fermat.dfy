/** Fermat's little theorem and the certifying half of Euler's criterion: a number whose power to the half of m - 1 is
    -1 is not a square modulo the prime m. */
module Fermat {
  import opened Numbers
  import opened ModularInverse

  ghost predicate Prime(m: Modulus) {
    forall k :: 1 < k < m ==> !Divides(k, m)
  }

  /** In a prime field every nonzero residue has an inverse. */
  lemma {:induction false} PrimeInverts(n: int, m: Modulus) returns (k: int)
    requires Prime(m) && 0 < n < m
    ensures IsInverse(k, n, m)
    decreases n
  {
    hide Congruent;
    var h := 1;
    if n > 1 {
      assert !Divides(n, m);
      var r, q := m % n, m / n;
      var k' := PrimeInverts(r, m);
      h := -q * k';
      CongruentBy(h * n, k' * r, m, -k');
      CongruentTrans(h * n, k' * r, 1, m);
    } else {
      CongruentBy(1 * n, 1, m, 0);
    }
    k := h % m;
    Reduces(h, m);
    CongruentScale(n, k, h, m);
    assert n * k == k * n && n * h == h * n;
    CongruentTrans(k * n, h * n, 1, m);
  }

  lemma ZeroOrInvertible(n: int, m: Modulus)
    requires Prime(m)
    ensures Inverse(n, m).Some? || Congruent(n, 0, m)
  {
    hide Congruent;
    if n % m == 0 {
      CongruentBy(n, 0, m, n / m);
    } else {
      Reduces(n, m);
      var k := PrimeInverts(n % m, m);
      CongruentScale(k, n % m, n, m);
      CongruentTrans(k * n, k * (n % m), 1, m) by {
        CongruentScale(k, n, n % m, m);
      }
      assert IsInverse(k, n, m);
    }
  }

  /** A nonzero factor can be cancelled modulo a prime. */
  lemma CancelFactor(a: int, x: int, y: int, m: Modulus)
    requires Prime(m) && !Congruent(a, 0, m) && Congruent(a * x, a * y, m)
    ensures Congruent(x, y, m)
  {
    hide Congruent, Prime, Inverse;
    ZeroOrInvertible(a, m);
    var k := Inverse(a, m).value;
    assert Congruent(k * a, 1, m);
    CongruentScale(k, a * x, a * y, m);
    CongruentScale(x, k * a, 1, m);
    CongruentScale(y, k * a, 1, m);
    assert x * (k * a) == k * (a * x) && y * (k * a) == k * (a * y);
    CongruentTrans(k * (a * x), k * (a * y), y, m);
    CongruentTrans(x, k * (a * x), y, m) by {
      CongruentTrans(k * (a * x), x, x, m) by { CongruentBy(x, x, m, 0); }
    }
  }

  // ---------- powers and products ----------

  function Power(a: int, n: nat): int {
    if n == 0 then 1 else a * Power(a, n - 1)
  }

  function Factorial(n: nat): int {
    if n == 0 then 1 else n * Factorial(n - 1)
  }

  function Product(s: seq<int>): int {
    if s == [] then 1 else s[|s| - 1] * Product(s[..|s| - 1])
  }

  lemma {:induction false} PowerAdd(a: int, m: nat, n: nat)
    ensures Power(a, m + n) == Power(a, m) * Power(a, n)
  {
    if m > 0 {
      PowerAdd(a, m - 1, n);
      assert a * (Power(a, m - 1) * Power(a, n)) == (a * Power(a, m - 1)) * Power(a, n);
    }
  }

  lemma {:induction false} PowerCongruent(a: int, b: int, n: nat, m: Modulus)
    requires Congruent(a, b, m)
    ensures Congruent(Power(a, n), Power(b, n), m)
  {
    hide Congruent;
    if n == 0 {
      CongruentBy(1, 1, m, 0);
    } else {
      PowerCongruent(a, b, n - 1, m);
      CongruentMul(a, b, Power(a, n - 1), Power(b, n - 1), m);
    }
  }

  lemma {:induction false} PowerOfSquare(t: int, n: nat)
    ensures Power(t * t, n) == Power(t, 2 * n)
  {
    if n > 0 {
      PowerOfSquare(t, n - 1);
      assert Power(t, 2 * n) == t * (t * Power(t, 2 * n - 2));
    }
  }

  /** Taking one element out of a product. */
  lemma {:induction false} ProductWithout(s: seq<int>, i: nat)
    requires i < |s|
    ensures Product(s) == s[i] * Product(s[..i] + s[i + 1..])
  {
    var last := |s| - 1;
    if i == last {
      assert s[..i] + s[i + 1..] == s[..last];
    } else {
      var short := s[..last];
      ProductWithout(short, i);
      var rest := s[..i] + s[i + 1..];
      assert rest[..|rest| - 1] == short[..i] + short[i + 1..] && rest[|rest| - 1] == s[last];
      var p := Product(short[..i] + short[i + 1..]);
      assert s[last] * (s[i] * p) == s[i] * (s[last] * p);
    }
  }

  ghost predicate Within(s: seq<int>, n: nat) {
    forall i :: 0 <= i < |s| ==> 1 <= s[i] <= n
  }

  ghost predicate Different(s: seq<int>) {
    forall i, j :: 0 <= i < j < |s| ==> s[i] != s[j]
  }

  /** At most n different numbers lie between 1 and n. */
  lemma {:induction false} Pigeonhole(s: seq<int>, n: nat)
    requires Within(s, n) && Different(s)
    ensures |s| <= n
  {
    assert s != [] ==> 1 <= s[0] <= n;
    if n == 0 {
    } else if i :| 0 <= i < |s| && s[i] == n {
      Pigeonhole(s[..i] + s[i + 1..], n - 1);
    } else {
      Pigeonhole(s, n - 1);
    }
  }

  /** n different numbers between 1 and n multiply to n!. */
  lemma {:induction false} ProductOfAll(s: seq<int>, n: nat)
    requires Within(s, n) && Different(s) && |s| == n
    ensures Product(s) == Factorial(n)
  {
    if n > 0 {
      if i :| 0 <= i < |s| && s[i] == n {
        ProductOfAll(s[..i] + s[i + 1..], n - 1);
        ProductWithout(s, i);
      } else {
        Pigeonhole(s, n - 1);
        assert false;
      }
    }
  }

  // ---------- Fermat ----------

  /** The residues of a, 2a, ..., na. */
  function Multiples(a: int, n: nat, m: Modulus): (s: seq<int>)
    ensures |s| == n && forall i :: 0 <= i < n ==> s[i] == (a * (i + 1)) % m
  {
    if n == 0 then [] else Multiples(a, n - 1, m) + [(a * n) % m]
  }

  lemma {:induction false} ProductOfMultiples(a: int, n: nat, m: Modulus)
    ensures Congruent(Product(Multiples(a, n, m)), Power(a, n) * Factorial(n), m)
  {
    hide Congruent;
    if n == 0 {
      CongruentBy(1, 1, m, 0);
    } else {
      ProductOfMultiples(a, n - 1, m);
      var s := Multiples(a, n, m);
      assert s[..n - 1] == Multiples(a, n - 1, m);
      Reduces(a * n, m);
      CongruentMul((a * n) % m, a * n, Product(s[..n - 1]), Power(a, n - 1) * Factorial(n - 1), m);
      Rearrange(a, n, Power(a, n - 1), Factorial(n - 1));
    }
  }

  lemma Rearrange(a: int, n: int, p: int, f: int)
    ensures (a * n) * (p * f) == (a * p) * (n * f)
  {
  }

  lemma SmallNotZero(k: int, m: Modulus)
    requires 0 < k < m
    ensures !Congruent(k, 0, m)
  {
    ResidueUnique(k, 0, k, m);
    ResidueUnique(0, 0, 0, m);
  }

  lemma SameResidue(x: int, y: int, m: Modulus)
    requires x % m == y % m
    ensures Congruent(x, y, m)
  {
  }

  /** The multiples of a nonzero residue are all different and nonzero. */
  lemma MultiplesDiffer(a: int, m: Modulus)
    requires Prime(m) && !Congruent(a, 0, m)
    ensures Within(Multiples(a, m - 1, m), m - 1) && Different(Multiples(a, m - 1, m))
  {
    hide Congruent, Prime;
    var s := Multiples(a, m - 1, m);
    forall i | 0 <= i < |s| ensures 1 <= s[i] <= m - 1 {
      Reduces(a * (i + 1), m);
      if s[i] == 0 {
        CancelFactor(a, i + 1, 0, m);
        SmallNotZero(i + 1, m);
      }
    }
    forall i, j | 0 <= i < j < |s| ensures s[i] != s[j] {
      if s[i] == s[j] {
        SameResidue(a * (j + 1), a * (i + 1), m);
        CancelFactor(a, j + 1, i + 1, m);
        CongruentBy(i + 1, i + 1, m, 0);
        CongruentSub(j + 1, i + 1, i + 1, i + 1, m);
        SmallNotZero(j - i, m);
      }
    }
  }

  lemma {:induction false} FactorialNotZero(n: nat, m: Modulus)
    requires Prime(m) && n < m
    ensures !Congruent(Factorial(n), 0, m)
  {
    hide Congruent, Prime;
    SmallNotZero(1, m);
    if n > 0 {
      FactorialNotZero(n - 1, m);
      if Congruent(Factorial(n), 0, m) {
        SmallNotZero(n, m);
        CancelFactor(n, Factorial(n - 1), 0, m);
      }
    }
  }

  /** Fermat's little theorem. */
  lemma LittleTheorem(a: int, m: Modulus)
    requires Prime(m) && !Congruent(a, 0, m)
    ensures Congruent(Power(a, m - 1), 1, m)
  {
    hide Congruent, Prime, Power, Factorial, Product, Within, Different;
    MultiplesDiffer(a, m);
    ProductOfAll(Multiples(a, m - 1, m), m - 1);
    ProductOfMultiples(a, m - 1, m);
    FactorialNotZero(m - 1, m);
    CancelProduct(Factorial(m - 1), Power(a, m - 1), m);
  }

  lemma CancelProduct(f: int, q: int, m: Modulus)
    requires Prime(m) && !Congruent(f, 0, m) && Congruent(f, q * f, m)
    ensures Congruent(q, 1, m)
  {
    hide Prime;
    assert f * q == q * f && f * 1 == f;
    CancelFactor(f, q, 1, m);
  }

  ghost predicate NonSquare(n: int, m: Modulus) {
    forall t: int :: !Congruent(t * t, n, m)
  }

  /** Euler's criterion, the half that certifies: if d to the half of m - 1 is -1, then d is not a square. */
  lemma NotASquare(d: int, half: nat, m: Modulus)
    requires Prime(m) && m == 2 * half + 1 && m > 2 && Congruent(Power(d, half), -1, m)
    ensures NonSquare(d, m)
  {
    hide Congruent, Prime, Power;
    forall t: int ensures !Congruent(t * t, d, m) {
      if Congruent(t * t, d, m) {
        PowerCongruent(t * t, d, half, m);
        PowerOfSquare(t, half);
        CongruentTrans(Power(t, 2 * half), Power(d, half), -1, m);
        PowerIsNotMinusOne(t, half, m);
        assert false;
      }
    }
  }

  lemma PowerIsNotMinusOne(t: int, half: nat, m: Modulus)
    requires Prime(m) && m == 2 * half + 1 && m > 2
    ensures !Congruent(Power(t, 2 * half), -1, m)
  {
    hide Congruent, Prime, Power;
    if Congruent(Power(t, 2 * half), -1, m) {
      CongruentBy(1, 1, m, 0);
      if Congruent(t, 0, m) {
        PowerCongruent(t, 0, 2 * half, m);
        ZeroPower(2 * half);
        CongruentSymmetric(Power(t, 2 * half), 0, m);
        CongruentTrans(0, Power(t, 2 * half), -1, m);
        CongruentAdd(0, -1, 1, 1, m);
        CongruentTrans(1, 0, 0, m) by { CongruentBy(0, 0, m, 0); }
        SmallNotZero(1, m);
      } else {
        LittleTheorem(t, m);
        CongruentSymmetric(Power(t, 2 * half), 1, m);
        CongruentTrans(1, Power(t, 2 * half), -1, m);
        CongruentAdd(1, -1, 1, 1, m);
        SmallNotZero(2, m);
      }
      assert false;
    }
  }

  lemma ZeroPower(n: nat)
    requires n > 0
    ensures Power(0, n) == 0
  {
  }
}
