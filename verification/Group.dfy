/** The commitment group: a commutative group with two generators of a common order.
    Each law is stated through a predicate that serves as its trigger, so a proof names the
    instances it uses. */
module Group {
  import opened Numbers

  datatype Group<!P> = Group(zero: P, add: (P, P) -> P, G: P, H: P, order: int)

  ghost predicate AssociatesAt<P>(g: Group<P>, x: P, y: P, z: P) {
    g.add(g.add(x, y), z) == g.add(x, g.add(y, z))
  }

  ghost predicate CommutesAt<P>(g: Group<P>, x: P, y: P) {
    g.add(x, y) == g.add(y, x)
  }

  ghost predicate NeutralAt<P>(g: Group<P>, x: P) {
    g.add(g.zero, x) == x
  }

  ghost predicate Lawful<P(!new)>(g: Group<P>) {
    && g.order > 1
    && (forall x, y, z {:trigger AssociatesAt(g, x, y, z)} :: AssociatesAt(g, x, y, z))
    && (forall x, y {:trigger CommutesAt(g, x, y)} :: CommutesAt(g, x, y))
    && (forall x {:trigger NeutralAt(g, x)} :: NeutralAt(g, x))
    && Times(g, g.order, g.G) == g.zero
    && Times(g, g.order, g.H) == g.zero
  }

  /** The n-fold sum p + ... + p. */
  function Times<P>(g: Group<P>, n: nat, p: P): P {
    if n == 0 then g.zero else g.add(p, Times(g, n - 1, p))
  }

  lemma Associates<P(!new)>(g: Group<P>, x: P, y: P, z: P)
    requires Lawful(g)
    ensures g.add(g.add(x, y), z) == g.add(x, g.add(y, z))
  {
    assert AssociatesAt(g, x, y, z);
  }

  lemma Commutes<P(!new)>(g: Group<P>, x: P, y: P)
    requires Lawful(g)
    ensures g.add(x, y) == g.add(y, x)
  {
    assert CommutesAt(g, x, y);
  }

  lemma Neutral<P(!new)>(g: Group<P>, x: P)
    requires Lawful(g)
    ensures g.add(g.zero, x) == x && g.add(x, g.zero) == x
  {
    assert NeutralAt(g, x);
    Commutes(g, x, g.zero);
  }

  /** (w + x) + (y + z) == (w + y) + (x + z) */
  lemma Interchange<P(!new)>(g: Group<P>, w: P, x: P, y: P, z: P)
    requires Lawful(g)
    ensures g.add(g.add(w, x), g.add(y, z)) == g.add(g.add(w, y), g.add(x, z))
  {
    Associates(g, w, x, g.add(y, z));
    Associates(g, x, y, z);
    Commutes(g, x, y);
    Associates(g, y, x, z);
    Associates(g, w, y, g.add(x, z));
  }

  lemma {:induction false} TimesAdd<P(!new)>(g: Group<P>, m: nat, n: nat, p: P)
    requires Lawful(g)
    ensures Times(g, m + n, p) == g.add(Times(g, m, p), Times(g, n, p))
  {
    if m == 0 {
      Neutral(g, Times(g, n, p));
    } else {
      TimesAdd(g, m - 1, n, p);
      Associates(g, p, Times(g, m - 1, p), Times(g, n, p));
    }
  }

  lemma {:induction false} TimesDouble<P(!new)>(g: Group<P>, n: nat, p: P)
    requires Lawful(g)
    ensures Times(g, 2 * n, p) == Times(g, n, g.add(p, p))
  {
    if n > 0 {
      TimesDouble(g, n - 1, p);
      assert Times(g, 2 * n, p) == g.add(p, g.add(p, Times(g, 2 * n - 2, p)));
      Associates(g, p, p, Times(g, 2 * n - 2, p));
    }
  }

  /** `pointMultiply`: the scalar is reduced modulo the order first. */
  function Scale<P>(g: Group<P>, n: int, p: P): P
    requires g.order > 0
  {
    Times(g, n % g.order, p)
  }

  /** Double-and-add computes the (amount mod order)-fold sum, for negative amounts too. */
  method PointMultiply<P(!new)>(g: Group<P>, point: P, amount: int) returns (out: P)
    requires Lawful(g)
    ensures out == Scale(g, amount, point)
  {
    var n := Mod(amount, g.order);
    var base := point;
    out := g.zero;
    Neutral(g, Times(g, n, point));
    while n != 0
      invariant n >= 0
      invariant g.add(out, Times(g, n, base)) == Scale(g, amount, point)
    {
      TimesDouble(g, n / 2, base);
      if n % 2 == 1 {
        assert Times(g, n, base) == g.add(base, Times(g, 2 * (n / 2), base));
        Associates(g, out, base, Times(g, 2 * (n / 2), base));
        out := g.add(out, base);
      }
      base := g.add(base, base);
      n := n / 2;
    }
    Neutral(g, out);
  }

  ghost predicate HasOrder<P>(g: Group<P>, p: P)
    requires g.order > 0
  {
    Times(g, g.order, p) == g.zero
  }

  lemma ScaleAdd<P(!new)>(g: Group<P>, a: int, b: int, p: P)
    requires Lawful(g) && HasOrder(g, p)
    ensures Scale(g, a + b, p) == g.add(Scale(g, a, p), Scale(g, b, p))
  {
    var m, n := a % g.order, b % g.order;
    TimesAdd(g, m, n, p);
    ResidueOfSum(a, b, g.order);
    if m + n >= g.order {
      TimesAdd(g, g.order, m + n - g.order, p);
      Neutral(g, Times(g, m + n - g.order, p));
    }
  }

  /** v·G + r·H */
  function Pedersen<P>(g: Group<P>, v: int, r: int): P
    requires g.order > 0
  {
    g.add(Scale(g, v, g.G), Scale(g, r, g.H))
  }

  method ComputePedersen<P(!new)>(g: Group<P>, v: int, r: int) returns (c: P)
    requires Lawful(g)
    ensures c == Pedersen(g, v, r)
  {
    var vG := PointMultiply(g, g.G, v);
    var rH := PointMultiply(g, g.H, r);
    c := g.add(vG, rH);
  }

  /** Commitments add homomorphically over all integers. */
  lemma PedersenAdd<P(!new)>(g: Group<P>, a: int, r: int, b: int, s: int)
    requires Lawful(g)
    ensures g.add(Pedersen(g, a, r), Pedersen(g, b, s)) == Pedersen(g, a + b, r + s)
  {
    ScaleAdd(g, a, b, g.G);
    ScaleAdd(g, r, s, g.H);
    Interchange(g, Scale(g, a, g.G), Scale(g, r, g.H), Scale(g, b, g.G), Scale(g, s, g.H));
  }

  lemma PedersenModulo<P(!new)>(g: Group<P>, v: int, r: int, v': int, r': int)
    requires g.order > 0 && Congruent(v, v', g.order) && Congruent(r, r', g.order)
    ensures Pedersen(g, v, r) == Pedersen(g, v', r')
  {
  }

  lemma PedersenZero<P(!new)>(g: Group<P>)
    requires Lawful(g)
    ensures Pedersen(g, 0, 0) == g.zero
  {
    Neutral(g, g.zero);
  }

  function SumOf<P>(g: Group<P>, ps: seq<P>): P {
    if ps == [] then g.zero else g.add(ps[0], SumOf(g, ps[1..]))
  }
}

/** The laws are consistent: pairs of residues form such a group, and there a commitment is its own opening. */
module ResiduePairs {
  import opened Numbers
  import opened Group

  const ORDER: int := 2736030358979909402780800718157159386076813972158567259200215660948447373041

  type Residue = n: int | 0 <= n < ORDER
  datatype Pair = Pair(v: Residue, r: Residue)

  function Plus(p: Pair, q: Pair): Pair {
    Pair(AddResidues(p.v, q.v), AddResidues(p.r, q.r))
  }

  function AddResidues(a: Residue, b: Residue): Residue {
    if a + b >= ORDER then a + b - ORDER else a + b
  }

  ghost function PairGroup(): Group<Pair> {
    Group(Pair(0, 0), Plus, Pair(1, 0), Pair(0, 1), ORDER)
  }

  lemma {:induction false} TimesGenerators(n: nat)
    ensures Times(PairGroup(), n, Pair(1, 0)) == Pair(n % ORDER, 0)
    ensures Times(PairGroup(), n, Pair(0, 1)) == Pair(0, n % ORDER)
  {
    if n > 0 {
      TimesGenerators(n - 1);
      ResidueOfSum(1, n - 1, ORDER);
    }
  }

  lemma PairGroupLawful()
    ensures Lawful(PairGroup())
  {
    var g := PairGroup();
    forall x, y, z ensures AssociatesAt(g, x, y, z) {}
    forall x, y ensures CommutesAt(g, x, y) {}
    forall x ensures NeutralAt(g, x) {}
    TimesGenerators(g.order);
  }

  /** In this instance two openings of one commitment agree modulo the order. */
  lemma PairCommitmentBinds(v: int, r: int)
    ensures Pedersen(PairGroup(), v, r) == Pair(v % ORDER, r % ORDER)
  {
    TimesGenerators(v % ORDER);
    TimesGenerators(r % ORDER);
    ResidueOfResidue(v, ORDER);
    ResidueOfResidue(r, ORDER);
  }
}

/** Baby Jubjub as an instance: commutativity, neutrality and closure are proved; associativity and
    the order of the generators stay hypotheses. */
module CurveGroup {
  import opened Group
  import opened Curve
  import opened ModularInverse
  import opened Numbers
  import ResiduePairs

  type CurvePoint = p: Point | OnCurve(p, FIELD) && Reduced(p, FIELD) witness NEUTRAL

  ghost function Plus(p: CurvePoint, q: CurvePoint): CurvePoint {
    if Sum(p, q, FIELD).Some? then SumStaysOnCurve(p, q, FIELD); Sum(p, q, FIELD).value else NEUTRAL
  }

  ghost function BabyJubjub(G: CurvePoint, H: CurvePoint): Group<CurvePoint> {
    var zero: CurvePoint := NEUTRAL;
    var add: (CurvePoint, CurvePoint) -> CurvePoint := Plus;
    Group(zero, add, G, H, ResiduePairs.ORDER)
  }

  lemma BabyJubjubLawful(G: CurvePoint, H: CurvePoint)
    requires forall x: CurvePoint, y: CurvePoint, z: CurvePoint :: Plus(Plus(x, y), z) == Plus(x, Plus(y, z))
    requires HasOrder(BabyJubjub(G, H), G) && HasOrder(BabyJubjub(G, H), H)
    ensures Lawful(BabyJubjub(G, H))
  {
    var g := BabyJubjub(G, H);
    forall x: CurvePoint, y: CurvePoint, z: CurvePoint ensures AssociatesAt(g, x, y, z) {}
    forall x: CurvePoint, y: CurvePoint ensures CommutesAt(g, x, y) {
      SumCommutes(x, y, FIELD);
    }
    forall x: CurvePoint ensures NeutralAt(g, x) {
      NeutralElement(x, FIELD);
    }
  }

  const BASE_G := Point(12337812418750581066638756637363471856433191340622504180842886595232027947307,
                        15225366398330386329633463986700597127113326976080712967801565482915963669722)
  const BASE_H := Point(10100005861917718053548237064487763771145251762383025193119768015180892676690,
                        7512830269827713629724023825249861327768672768516116945507944076335453576011)

  /** The generators that the commitments use are reduced curve points; the witnesses are the residues of x², y² and
      x·y. */
  lemma GeneratorsOnCurve()
    ensures OnCurve(BASE_G, FIELD) && Reduced(BASE_G, FIELD) && OnCurve(BASE_H, FIELD) && Reduced(BASE_H, FIELD)
  {
    Satisfies(BASE_G, 9194865951323994267661262584804056656145050396200685884111787120618778764323,
              4025013519673968899278742853606007988447363750417205449448274516740345588097,
              497941265150825945884378111731325569437171972263223363425351201778811870526, FIELD);
    Satisfies(BASE_H, 12695828839910332258576597158938600547393506122956646224246694396155808162267,
              16074589657215242141593900888794895006362791200466930865500752582848080824002,
              18805898768415731937583050866088497983854237805496322559302785780930538557469, FIELD);
  }

  lemma Satisfies(p: Point, xx: int, yy: int, xy: int, m: Modulus)
    requires (p.x * p.x) % m == xx && (p.y * p.y) % m == yy && (p.x * p.y) % m == xy
    requires (A * xx + yy) % m == (1 + D * (xy * xy)) % m
    ensures OnCurve(p, m)
  {
    hide Congruent;
    Reduces(p.x * p.x, m);
    Reduces(p.y * p.y, m);
    Reduces(p.x * p.y, m);
    CongruentScale(A, p.x * p.x, xx, m);
    CongruentAdd(A * (p.x * p.x), A * xx, p.y * p.y, yy, m);
    CongruentMul(p.x * p.y, xy, p.x * p.y, xy, m);
    CongruentScale(D, (p.x * p.y) * (p.x * p.y), xy * xy, m);
    CongruentBy(1, 1, m, 0);
    CongruentAdd(1, 1, D * ((p.x * p.y) * (p.x * p.y)), D * (xy * xy), m);
    SameResidues(A * xx + yy, 1 + D * (xy * xy), m);
    CongruentTrans(A * (p.x * p.x) + p.y * p.y, A * xx + yy, 1 + D * (xy * xy), m);
    CongruentSymmetric(1 + D * ((p.x * p.y) * (p.x * p.y)), 1 + D * (xy * xy), m);
    CongruentTrans(A * (p.x * p.x) + p.y * p.y, 1 + D * (xy * xy), 1 + D * ((p.x * p.y) * (p.x * p.y)), m);
    assert A * p.x * p.x == A * (p.x * p.x);
  }

  lemma SameResidues(a: int, b: int, m: Modulus)
    requires a % m == b % m
    ensures Congruent(a, b, m)
  {
  }
}
