/** Integer arithmetic modulo m, as the curve code uses it. */
module Numbers {
  type Modulus = m: int | m > 1 witness 2

  /** JavaScript's `%` on BigInt: truncated, so the sign follows the dividend. */
  function JsRem(n: int, p: int): (r: int)
    requires p > 0
  {
    if n >= 0 then n % p else -((-n) % p)
  }

  /** `mod(n, p)`: two truncated remainders give the Euclidean residue, for negative n too. */
  function Mod(n: int, p: int): (r: int)
    requires p > 0
    ensures 0 <= r < p && r == n % p
  {
    TwoRemainders(n, p);
    JsRem(JsRem(n, p) + p, p)
  }

  lemma TwoRemainders(n: int, p: int)
    requires p > 0
    ensures JsRem(JsRem(n, p) + p, p) == n % p
  {
    var r := JsRem(n, p);
    var k := if n >= 0 then 1 - n / p else 1 + (-n) / p;
    assert r + p == n + k * p;
    CongruentBy(r + p, n, p, k);
  }

  ghost predicate Congruent(a: int, b: int, m: int)
    requires m > 0
  {
    a % m == b % m
  }

  lemma CongruentBy(a: int, b: int, m: int, k: int)
    requires m > 0 && a == b + k * m
    ensures Congruent(a, b, m)
  {
    var q, r := b / m, b % m;
    assert a == (q + k) * m + r;
    ResidueUnique(a, q + k, r, m);
  }

  lemma ResidueUnique(a: int, q: int, r: int, m: int)
    requires m > 0 && 0 <= r < m && a == q * m + r
    ensures a % m == r && a / m == q
  {
    var e := q - a / m;
    assert e * m == a % m - r;
    assert (e >= 1 ==> e * m >= m) && (e <= -1 ==> e * m <= -m);
  }

  lemma Quotient(a: int, b: int, m: int) returns (k: int)
    requires m > 0 && Congruent(a, b, m)
    ensures a == b + k * m
  {
    k := a / m - b / m;
    assert a == (a / m) * m + a % m && b == (b / m) * m + b % m;
  }

  lemma CongruentAdd(a: int, b: int, c: int, d: int, m: int)
    requires m > 0 && Congruent(a, b, m) && Congruent(c, d, m)
    ensures Congruent(a + c, b + d, m)
  {
    var k := Quotient(a, b, m);
    var l := Quotient(c, d, m);
    CongruentBy(a + c, b + d, m, k + l);
  }

  lemma CongruentSub(a: int, b: int, c: int, d: int, m: int)
    requires m > 0 && Congruent(a, b, m) && Congruent(c, d, m)
    ensures Congruent(a - c, b - d, m)
  {
    var k := Quotient(a, b, m);
    var l := Quotient(c, d, m);
    CongruentBy(a - c, b - d, m, k - l);
  }

  lemma CongruentMul(a: int, b: int, c: int, d: int, m: int)
    requires m > 0 && Congruent(a, b, m) && Congruent(c, d, m)
    ensures Congruent(a * c, b * d, m)
  {
    var k := Quotient(a, b, m);
    var l := Quotient(c, d, m);
    CongruentBy(a * c, b * d, m, k * d + b * l + k * l * m);
  }

  lemma CongruentScale(f: int, a: int, b: int, m: int)
    requires m > 0 && Congruent(a, b, m)
    ensures Congruent(f * a, f * b, m)
  {
    CongruentMul(f, f, a, b, m);
  }

  lemma ResidueOfResidue(n: int, m: int)
    requires m > 0
    ensures (n % m) % m == n % m
  {
    ResidueUnique(n % m, 0, n % m, m);
  }

  /** Reducing a factor or a summand does not change a residue. */
  lemma Reduces(n: int, m: int)
    requires m > 0
    ensures Congruent(n % m, n, m) && Congruent(n, n % m, m) && 0 <= n % m < m
  {
    ResidueOfResidue(n, m);
  }

  lemma CongruentSymmetric(a: int, b: int, m: int)
    requires m > 0 && Congruent(a, b, m)
    ensures Congruent(b, a, m)
  {
  }

  lemma CongruentTrans(a: int, b: int, c: int, m: int)
    requires m > 0 && Congruent(a, b, m) && Congruent(b, c, m)
    ensures Congruent(a, c, m) && Congruent(c, a, m)
  {
  }

  lemma ResidueOfSum(a: int, b: int, m: int)
    requires m > 0
    ensures (a + b) % m == if a % m + b % m >= m then a % m + b % m - m else a % m + b % m
  {
    var carry := if a % m + b % m >= m then 1 else 0;
    var q := a / m + b / m + carry;
    assert q * m == (a / m) * m + (b / m) * m + carry * m;
    ResidueUnique(a + b, q, a % m + b % m - carry * m, m);
  }
}
