/** The Go demo's plaintext mirror of the on-chain commitment ledger. One flow runs at a time; the chain adds
    the submitted commitments to the stored balances when it accepts a transaction. */
module PaymentsMirror {
  import opened Wrappers
  import opened Numbers
  import opened Group

  const BANKS: nat := 6

  // ---------- commitments with unreduced scalars ----------

  lemma {:induction false} TimesModulo<P(!new)>(g: Group<P>, n: nat, p: P)
    requires Lawful(g) && HasOrder(g, p)
    ensures Times(g, n, p) == Scale(g, n, p)
    decreases n
  {
    if n >= g.order {
      var m := n - g.order;
      TimesModulo(g, m, p);
      TimesAdd(g, g.order, m, p);
      Neutral(g, Times(g, m, p));
      CongruentBy(n, m, g.order, 1);
    } else {
      ResidueUnique(n, 0, n, g.order);
    }
  }

  /** The curve library: it multiplies a point by a nonnegative scalar as given, without reducing it. What it does
      with a negative scalar is a parameter. */
  datatype Library<!P> = Library(g: Group<P>, negative: (int, P) -> P)

  function Multiply<P>(l: Library<P>, n: int, p: P): P {
    if n >= 0 then Times(l.g, n, p) else l.negative(n, p)
  }

  /** `pedersenCommit` */
  function GoCommit<P>(l: Library<P>, v: int, r: nat): P {
    l.g.add(Multiply(l, v, l.g.G), Multiply(l, r, l.g.H))
  }

  /** The library's product of G is the group's. */
  predicate Exact<P(==)>(l: Library<P>, v: int)
    requires l.g.order > 0
  {
    v >= 0 || l.negative(v, l.g.G) == Scale(l.g, v, l.g.G)
  }

  /** x + a == y + a only if x == y, for a multiple a of a point of the group order. */
  lemma Cancel<P(!new)>(g: Group<P>, x: P, y: P, n: int, p: P)
    requires Lawful(g) && HasOrder(g, p)
    ensures g.add(x, Scale(g, n, p)) == g.add(y, Scale(g, n, p)) <==> x == y
  {
    if g.add(x, Scale(g, n, p)) == g.add(y, Scale(g, n, p)) {
      ScaleAdd(g, n, -n, p);
      Associates(g, x, Scale(g, n, p), Scale(g, -n, p));
      Associates(g, y, Scale(g, n, p), Scale(g, -n, p));
      Neutral(g, x);
      Neutral(g, y);
      assert Scale(g, 0, p) == g.zero;
    }
  }

  /** A commitment opens to its arguments exactly when the library is exact for its value. */
  lemma GoCommitIsPedersen<P(!new)>(l: Library<P>, v: int, r: nat)
    requires Lawful(l.g)
    ensures GoCommit(l, v, r) == Pedersen(l.g, v, r) <==> Exact(l, v)
  {
    TimesModulo(l.g, r, l.g.H);
    if v >= 0 {
      TimesModulo(l.g, v, l.g.G);
    }
    Cancel(l.g, Multiply(l, v, l.g.G), Scale(l.g, v, l.g.G), r, l.g.H);
  }

  /** How far the library's product of G is off: the difference to the group's product. */
  function Difference<P>(l: Library<P>, v: int): P
    requires l.g.order > 0
  {
    if v >= 0 then l.g.zero else l.g.add(l.negative(v, l.g.G), Scale(l.g, -v, l.g.G))
  }

  /** A commitment is off by what the library is off for its value, and the library is exact when that is neutral. */
  lemma GoCommitDiffers<P(!new)>(l: Library<P>, v: int, r: nat)
    requires Lawful(l.g)
    ensures GoCommit(l, v, r) == l.g.add(Pedersen(l.g, v, r), Difference(l, v))
    ensures Difference(l, v) == l.g.zero <==> Exact(l, v)
  {
    var g := l.g;
    Neutral(g, GoCommit(l, v, r));
    GoCommitIsPedersen(l, v, r);
    if v < 0 {
      var w, part, rest, inverse := l.negative(v, g.G), Scale(g, v, g.G), Scale(g, r, g.H), Scale(g, -v, g.G);
      ScaleAdd(g, v, -v, g.G);
      assert g.add(part, inverse) == g.zero;
      Cancel(g, w, part, -v, g.G);
      TimesModulo(g, r, g.H);
      Commutes(g, w, inverse);
      Interchange(g, part, rest, inverse, w);
      Neutral(g, g.add(rest, w));
      Commutes(g, rest, w);
    }
  }

  /** `negMod`: between 1 and the order, never 0. */
  function NegMod(x: int, order: int): (r: nat)
    requires order > 0
    ensures 1 <= r <= order && Congruent(r, -x, order)
  {
    CongruentBy(order - x % order, -x, order, 1 + x / order);
    order - x % order
  }

  // ---------- a transfer ----------

  function SumOthers(xs: seq<int>, sender: nat, n: nat): int
    requires n <= |xs|
  {
    if n == 0 then 0 else SumOthers(xs, sender, n - 1) + if n - 1 == sender then 0 else xs[n - 1]
  }

  /** A request that the handler lets through. It checks the sum of the receiver amounts, not their signs. */
  predicate Accepted(sender: int, amount: int, receivers: seq<int>) {
    0 <= sender < BANKS && |receivers| == BANKS && amount > 0 && SumOthers(receivers, sender, BANKS) == amount
  }

  /** What the mirror books for bank i. */
  function ValueDelta(sender: nat, amount: int, receivers: seq<int>, i: nat): int
    requires i < |receivers|
  {
    if i == sender then -amount else receivers[i]
  }

  function SumDeltas(sender: nat, amount: int, receivers: seq<int>, n: nat): int
    requires n <= |receivers|
  {
    if n == 0 then 0
    else SumDeltas(sender, amount, receivers, n - 1) + ValueDelta(sender, amount, receivers, n - 1)
  }

  lemma {:induction false} DeltasUpTo(sender: nat, amount: int, receivers: seq<int>, n: nat)
    requires n <= |receivers|
    ensures SumDeltas(sender, amount, receivers, n)
         == SumOthers(receivers, sender, n) - if n > sender then amount else 0
  {
    if n > 0 {
      DeltasUpTo(sender, amount, receivers, n - 1);
    }
  }

  /** An accepted transfer takes the amount from the sender's book, adds each receiver's own amount, and moves no value
      in total. */
  lemma BooksAreMoved(sender: nat, amount: int, receivers: seq<int>, i: nat)
    requires Accepted(sender, amount, receivers) && i < BANKS
    ensures ValueDelta(sender, amount, receivers, i) == if i == sender then -amount else receivers[i]
    ensures SumDeltas(sender, amount, receivers, BANKS) == 0
  {
    DeltasUpTo(sender, amount, receivers, BANKS);
  }

  /** `txRandom[i]` for the slot hashes rs. */
  function RandomDelta(order: int, sender: nat, rs: seq<int>, i: nat): nat
    requires order > 0 && i < |rs| == BANKS
  {
    if i == sender then SumOthers(rs, sender, BANKS) % order else NegMod(rs[i], order)
  }

  /** The scalar that bank i's commitment is made from. */
  function TxValue(order: int, sender: nat, amount: int, receivers: seq<int>, i: nat): int
    requires order > 0 && i < |receivers|
  {
    if i == sender then NegMod(amount, order) else receivers[i]
  }

  function TxCommit<P>(l: Library<P>, sender: nat, amount: int, receivers: seq<int>, rs: seq<int>, i: nat): P
    requires l.g.order > 0 && |receivers| == |rs| == BANKS && i < BANKS
  {
    GoCommit(l, TxValue(l.g.order, sender, amount, receivers, i), RandomDelta(l.g.order, sender, rs, i))
  }

  /** A submitted commitment opens to what the mirror books exactly when the library is exact for its amount. */
  lemma TxCommitOpens<P(!new)>(l: Library<P>, sender: nat, amount: int, receivers: seq<int>, rs: seq<int>, i: nat)
    requires Lawful(l.g) && |receivers| == |rs| == BANKS && i < BANKS
    ensures i == sender || Exact(l, receivers[i]) <==>
            TxCommit(l, sender, amount, receivers, rs, i)
              == Pedersen(l.g, ValueDelta(sender, amount, receivers, i), RandomDelta(l.g.order, sender, rs, i))
  {
    var v, r := TxValue(l.g.order, sender, amount, receivers, i), RandomDelta(l.g.order, sender, rs, i);
    GoCommitIsPedersen(l, v, r);
    PedersenModulo(l.g, v, r, ValueDelta(sender, amount, receivers, i), r);
  }

  /** A submitted commitment is off by what the library is off for a receiver's amount. */
  lemma TxCommitDiffers<P(!new)>(l: Library<P>, sender: nat, amount: int, receivers: seq<int>, rs: seq<int>, i: nat)
    requires Lawful(l.g) && |receivers| == |rs| == BANKS && i < BANKS
    ensures TxCommit(l, sender, amount, receivers, rs, i)
         == l.g.add(Pedersen(l.g, ValueDelta(sender, amount, receivers, i), RandomDelta(l.g.order, sender, rs, i)),
                    if i == sender then l.g.zero else Difference(l, receivers[i]))
  {
    var v, r := TxValue(l.g.order, sender, amount, receivers, i), RandomDelta(l.g.order, sender, rs, i);
    GoCommitDiffers(l, v, r);
    PedersenModulo(l.g, v, r, ValueDelta(sender, amount, receivers, i), r);
  }

  /** Partial sums of the deltas over the first n banks. */
  function SumCommits<P>(l: Library<P>, sender: nat, amount: int, receivers: seq<int>, rs: seq<int>, n: nat): P
    requires l.g.order > 0 && |receivers| == |rs| == BANKS && n <= BANKS
  {
    if n == 0 then l.g.zero
    else l.g.add(SumCommits(l, sender, amount, receivers, rs, n - 1), TxCommit(l, sender, amount, receivers, rs, n - 1))
  }

  /** The negative amounts among the first n receivers: what the library makes of them, and their sum. */
  function NegativePart<P>(l: Library<P>, sender: nat, receivers: seq<int>, n: nat): P
    requires n <= |receivers|
  {
    if n == 0 then l.g.zero
    else if n - 1 == sender || receivers[n - 1] >= 0 then NegativePart(l, sender, receivers, n - 1)
    else l.g.add(NegativePart(l, sender, receivers, n - 1), l.negative(receivers[n - 1], l.g.G))
  }

  function NegativeSum(sender: nat, receivers: seq<int>, n: nat): int
    requires n <= |receivers|
  {
    if n == 0 then 0
    else
      NegativeSum(sender, receivers, n - 1)
      + if n - 1 == sender || receivers[n - 1] >= 0 then 0 else receivers[n - 1]
  }

  /** The sums split into the library's negative part and an opened rest. */
  lemma {:induction false} SumCommitsSplit<P(!new)>(l: Library<P>, sender: nat, amount: int, receivers: seq<int>,
                                                    rs: seq<int>, n: nat) returns (r: int)
    requires Lawful(l.g) && |receivers| == |rs| == BANKS && n <= BANKS
    ensures SumCommits(l, sender, amount, receivers, rs, n)
         == l.g.add(NegativePart(l, sender, receivers, n),
                    Pedersen(l.g, SumOthers(receivers, sender, n) - NegativeSum(sender, receivers, n)
                                  - (if n > sender then amount else 0), r))
    ensures Congruent(r, (if n > sender then SumOthers(rs, sender, BANKS) else 0) - SumOthers(rs, sender, n), l.g.order)
  {
    var g := l.g;
    if n == 0 {
      PedersenZero(g);
      Neutral(g, g.zero);
      r := 0;
    } else {
      var i, total := n - 1, SumOthers(rs, sender, BANKS);
      var before := SumCommitsSplit(l, sender, amount, receivers, rs, i);
      var x := RandomDelta(g.order, sender, rs, i);
      r := before + x;
      var rest := SumOthers(receivers, sender, i) - NegativeSum(sender, receivers, i)
          - (if i > sender then amount else 0);
      SplitStep(l, NegativePart(l, sender, receivers, i), rest, before, sender, amount, receivers, rs, i);
      var exact := if i == sender then total else -rs[i];
      assert Congruent(x, exact, g.order) by { ResidueOfResidue(total, g.order); }
      CongruentAdd(before, (if i > sender then total else 0) - SumOthers(rs, sender, i), x, exact, g.order);
    }
  }

  /** Adding one commitment to a split sum. */
  lemma SplitStep<P(!new)>(l: Library<P>, part: P, rest: int, r: int, sender: nat, amount: int, receivers: seq<int>,
                           rs: seq<int>, i: nat)
    requires Lawful(l.g) && |receivers| == |rs| == BANKS && i < BANKS
    ensures var x := RandomDelta(l.g.order, sender, rs, i);
            var sum := l.g.add(l.g.add(part, Pedersen(l.g, rest, r)), TxCommit(l, sender, amount, receivers, rs, i));
            if i == sender || receivers[i] >= 0
            then sum == l.g.add(part, Pedersen(l.g, rest + ValueDelta(sender, amount, receivers, i), r + x))
            else sum == l.g.add(l.g.add(part, l.negative(receivers[i], l.g.G)), Pedersen(l.g, rest, r + x))
  {
    var g, x := l.g, RandomDelta(l.g.order, sender, rs, i);
    if i == sender || receivers[i] >= 0 {
      TxCommitOpens(l, sender, amount, receivers, rs, i);
      var v := ValueDelta(sender, amount, receivers, i);
      Associates(g, part, Pedersen(g, rest, r), Pedersen(g, v, x));
      PedersenAdd(g, rest, r, v, x);
    } else {
      var w := l.negative(receivers[i], g.G);
      TimesModulo(g, x, g.H);
      Interchange(g, part, Pedersen(g, rest, r), w, Scale(g, x, g.H));
      PedersenAdd(g, rest, r, 0, x);
      Neutral(g, Scale(g, x, g.H));
      assert Pedersen(g, 0, x) == Scale(g, x, g.H);
    }
  }

  /** The commitments of an accepted transfer add up to the neutral point exactly when the library's products of the
      negative receiver amounts add up to the group's; without negative amounts they always do. */
  lemma TransferBalances<P(!new)>(l: Library<P>, sender: nat, amount: int, receivers: seq<int>, rs: seq<int>)
    requires Lawful(l.g) && Accepted(sender, amount, receivers) && |rs| == BANKS
    ensures SumCommits(l, sender, amount, receivers, rs, BANKS) == l.g.zero <==>
            NegativePart(l, sender, receivers, BANKS) == Scale(l.g, NegativeSum(sender, receivers, BANKS), l.g.G)
    ensures (forall i :: 0 <= i < BANKS && i != sender ==> receivers[i] >= 0) ==>
              SumCommits(l, sender, amount, receivers, rs, BANKS) == l.g.zero
  {
    var g, negative := l.g, NegativeSum(sender, receivers, BANKS);
    var r := SumCommitsSplit(l, sender, amount, receivers, rs, BANKS);
    PedersenModulo(g, -negative, r, -negative, 0);
    Neutral(g, Scale(g, -negative, g.G));
    assert Pedersen(g, -negative, 0) == Scale(g, -negative, g.G);
    ScaleAdd(g, negative, -negative, g.G);
    Cancel(g, NegativePart(l, sender, receivers, BANKS), Scale(g, negative, g.G), -negative, g.G);
    if forall i :: 0 <= i < BANKS && i != sender ==> receivers[i] >= 0 {
      NoNegatives(l, sender, receivers, BANKS);
    }
  }

  lemma {:induction false} NoNegatives<P>(l: Library<P>, sender: nat, receivers: seq<int>, n: nat)
    requires l.g.order > 0 && n <= |receivers| && forall i :: 0 <= i < n && i != sender ==> receivers[i] >= 0
    ensures NegativePart(l, sender, receivers, n) == l.g.zero == Scale(l.g, 0, l.g.G)
    ensures NegativeSum(sender, receivers, n) == 0
  {
    if n > 0 {
      NoNegatives(l, sender, receivers, n - 1);
    }
  }

  // ---------- the mirror ----------

  class Demo<P(==, !new)> {
    const l: Library<P>
    /** The contract's stored balance commitments; None until the account is registered. */
    var chain: seq<Option<P>>
    const mintedBalances: array<int>
    const cumulativeR: array<int>
    /** By bank: the sum of what the curve library was off by in the commitments added so far. */
    ghost var drift: seq<P>

    ghost predicate Shape()
      reads this
    {
      Lawful(l.g) && |chain| == BANKS && mintedBalances.Length == BANKS && cumulativeR.Length == BANKS
      && mintedBalances != cumulativeR
    }

    /** Every registered account's balance is the opening the mirror has for it, plus its drift. */
    ghost predicate Tracks()
      reads this, mintedBalances, cumulativeR
    {
      && Shape() && |drift| == BANKS
      && (forall i :: 0 <= i < BANKS ==> match chain[i]
            case None => mintedBalances[i] == 0 && drift[i] == l.g.zero
            case Some(c) => c == l.g.add(Pedersen(l.g, mintedBalances[i], cumulativeR[i]), drift[i]))
    }

    /** Every registered account's balance opens as the mirror says. */
    ghost predicate Mirrors()
      reads this, mintedBalances, cumulativeR
    {
      && Shape()
      && (forall i :: 0 <= i < BANKS ==> match chain[i]
            case None => mintedBalances[i] == 0
            case Some(c) => c == Pedersen(l.g, mintedBalances[i], cumulativeR[i]))
    }

    /** The mirror is exact exactly when all that the library was off by has cancelled out, bank by bank. */
    lemma MirrorsIff()
      requires Tracks()
      ensures Mirrors() <==> forall i :: 0 <= i < BANKS ==> drift[i] == l.g.zero
    {
      hide Pedersen;
      forall i | 0 <= i < BANKS && chain[i].Some?
        ensures chain[i].value == Pedersen(l.g, mintedBalances[i], cumulativeR[i]) <==> drift[i] == l.g.zero
      {
        OpensIff(l.g, mintedBalances[i], cumulativeR[i], drift[i]);
      }
    }

    constructor (l: Library<P>)
      requires Lawful(l.g)
      ensures Tracks() && Mirrors() && this.l == l && fresh(mintedBalances) && fresh(cumulativeR)
      ensures chain == seq(BANKS, (i: nat) => None)
    {
      this.l := l;
      chain := seq(BANKS, (i: nat) => None);
      drift := seq(BANKS, (i: nat) => l.g.zero);
      mintedBalances := new int[BANKS](i => 0);
      cumulativeR := new int[BANKS](i => 0);
    }

    /** `runRegisterBank`: a first registration stores Com(0, regR); a repeated one changes nothing. */
    method Register(bank: nat, regR: nat)
      requires Tracks() && bank < BANKS
      modifies this`chain, cumulativeR
      ensures Tracks() && (Mirrors() <==> old(Mirrors()))
      ensures old(chain[bank]).Some? ==> chain == old(chain) && cumulativeR[..] == old(cumulativeR[..])
      ensures old(chain[bank]).None? ==>
                chain == old(chain)[bank := Some(GoCommit(l, 0, regR))] && cumulativeR[bank] == regR
      ensures forall i :: 0 <= i < BANKS && i != bank ==> cumulativeR[i] == old(cumulativeR[i])
    {
      hide Pedersen, GoCommit;
      MirrorsIff();
      GoCommitIsPedersen(l, 0, regR);
      OpensIff(l.g, 0, regR, l.g.zero);
      if chain[bank].None? {
        chain := chain[bank := Some(GoCommit(l, 0, regR))];
        cumulativeR[bank] := regR;
      }
      MirrorsIff();
    }

    /** `runMintSupply`: booked only if the chain accepted it. */
    method Mint(bank: nat, amount: nat, mintR: nat, accepted: bool)
      requires Tracks() && bank < BANKS && (accepted ==> chain[bank].Some?)
      modifies this`chain, mintedBalances, cumulativeR
      ensures Tracks() && (Mirrors() <==> old(Mirrors()))
      ensures !accepted ==> chain == old(chain) && mintedBalances[..] == old(mintedBalances[..])
                            && cumulativeR[..] == old(cumulativeR[..])
      ensures accepted ==>
                && chain == old(chain)[bank := Some(l.g.add(old(chain[bank]).value, GoCommit(l, amount, mintR)))]
                && mintedBalances[bank] == old(mintedBalances[bank]) + amount
                && cumulativeR[bank] == (old(cumulativeR[bank]) + mintR) % l.g.order
      ensures forall i :: 0 <= i < BANKS && i != bank ==>
                mintedBalances[i] == old(mintedBalances[i]) && cumulativeR[i] == old(cumulativeR[i])
    {
      hide Pedersen, GoCommit;
      if !accepted { return; }
      MirrorsIff();
      GoCommitDiffers(l, amount, mintR);
      Booked(l.g, mintedBalances[bank], cumulativeR[bank], drift[bank], amount, mintR, l.g.zero);
      Neutral(l.g, drift[bank]);
      chain := chain[bank := Some(l.g.add(chain[bank].value, GoCommit(l, amount, mintR)))];
      mintedBalances[bank] := mintedBalances[bank] + amount;
      cumulativeR[bank] := (cumulativeR[bank] + mintR) % l.g.order;
      MirrorsIff();
    }

    /** The chain's and the mirror's effect of an accepted transfer: the three loops of `runTransfer`. Each receiver's
        drift grows by what the library is off for its amount, whatever it was before. */
    method Transfer(sender: nat, amount: int, receivers: seq<int>, rs: seq<int>)
      requires Tracks() && Accepted(sender, amount, receivers) && |rs| == BANKS
      requires forall i :: 0 <= i < BANKS ==> chain[i].Some?
      modifies this`chain, this`drift, mintedBalances, cumulativeR
      ensures Tracks()
      ensures forall i :: 0 <= i < BANKS ==>
                drift[i] == if i == sender then old(drift[i]) else l.g.add(old(drift[i]), Difference(l, receivers[i]))
      ensures old(Mirrors()) ==>
                (Mirrors() <==> forall i :: 0 <= i < BANKS && i != sender ==> Exact(l, receivers[i]))
      ensures |chain| == BANKS && forall i :: 0 <= i < BANKS ==>
                chain[i] == Some(l.g.add(old(chain[i]).value, TxCommit(l, sender, amount, receivers, rs, i)))
      ensures forall i :: 0 <= i < BANKS ==>
                mintedBalances[i] == old(mintedBalances[i]) + ValueDelta(sender, amount, receivers, i)
      ensures forall i :: 0 <= i < BANKS ==>
                cumulativeR[i] == (old(cumulativeR[i]) + RandomDelta(l.g.order, sender, rs, i)) % l.g.order
    {
      hide Exact, TxCommit, RandomDelta, ValueDelta, Pedersen, Difference;
      MirrorsIff();
      ApplyOnChain(sender, amount, receivers, rs);
      BookBalances(sender, amount, receivers);
      BookRandomness(sender, rs);
      var before := drift;
      drift := seq(BANKS, (i: nat) requires 0 <= i < BANKS =>
                 if i == sender then before[i] else l.g.add(before[i], Difference(l, receivers[i])));
      forall i | 0 <= i < BANKS
        ensures chain[i].value == l.g.add(Pedersen(l.g, mintedBalances[i], cumulativeR[i]), drift[i])
        ensures before[i] == l.g.zero ==> (drift[i] == l.g.zero <==> i == sender || Exact(l, receivers[i]))
      {
        DriftGrows(l, old(mintedBalances[i]), old(cumulativeR[i]), before[i], sender, amount, receivers, rs, i);
      }
      MirrorsIff();
    }

    method ApplyOnChain(sender: nat, amount: int, receivers: seq<int>, rs: seq<int>)
      requires Shape() && |receivers| == |rs| == BANKS
      requires forall i :: 0 <= i < BANKS ==> chain[i].Some?
      modifies this`chain
      ensures |chain| == BANKS
      ensures forall i :: 0 <= i < BANKS ==>
                chain[i] == Some(l.g.add(old(chain[i]).value, TxCommit(l, sender, amount, receivers, rs, i)))
    {
      hide TxCommit;
      for i := 0 to BANKS
        invariant |chain| == BANKS
        invariant forall j :: 0 <= j < i ==>
                    chain[j] == Some(l.g.add(old(chain[j]).value, TxCommit(l, sender, amount, receivers, rs, j)))
        invariant forall j :: i <= j < BANKS ==> chain[j] == old(chain)[j]
      {
        chain := chain[i := Some(l.g.add(chain[i].value, TxCommit(l, sender, amount, receivers, rs, i)))];
      }
    }

    method BookBalances(sender: nat, amount: int, receivers: seq<int>)
      requires Shape() && Accepted(sender, amount, receivers)
      modifies mintedBalances
      ensures forall i :: 0 <= i < BANKS ==>
                mintedBalances[i] == old(mintedBalances[i]) + ValueDelta(sender, amount, receivers, i)
    {
      mintedBalances[sender] := mintedBalances[sender] - amount;
      for i := 0 to BANKS
        invariant forall j :: 0 <= j < i ==>
                    mintedBalances[j] == old(mintedBalances[j]) + ValueDelta(sender, amount, receivers, j)
        invariant forall j :: i <= j < BANKS ==>
                    mintedBalances[j] == old(mintedBalances[j]) - if j == sender then amount else 0
      {
        if i != sender {
          mintedBalances[i] := mintedBalances[i] + receivers[i];
        }
      }
    }

    method BookRandomness(sender: nat, rs: seq<int>)
      requires Shape() && |rs| == BANKS
      modifies cumulativeR
      ensures forall i :: 0 <= i < BANKS ==>
                cumulativeR[i] == (old(cumulativeR[i]) + RandomDelta(l.g.order, sender, rs, i)) % l.g.order
    {
      hide RandomDelta;
      for i := 0 to BANKS
        invariant forall j :: 0 <= j < i ==>
                    cumulativeR[j] == (old(cumulativeR[j]) + RandomDelta(l.g.order, sender, rs, j)) % l.g.order
        invariant forall j :: i <= j < BANKS ==> cumulativeR[j] == old(cumulativeR[j])
      {
        cumulativeR[i] := (cumulativeR[i] + RandomDelta(l.g.order, sender, rs, i)) % l.g.order;
      }
    }
  }

  /** Adding a delta and reducing the randomness books what the delta opens to, and adds what it is off by. */
  lemma Booked<P(!new)>(g: Group<P>, v: int, r: int, off: P, dv: int, dr: int, dOff: P)
    requires Lawful(g)
    ensures g.add(g.add(Pedersen(g, v, r), off), g.add(Pedersen(g, dv, dr), dOff))
         == g.add(Pedersen(g, v + dv, (r + dr) % g.order), g.add(off, dOff))
  {
    hide Pedersen;
    Interchange(g, Pedersen(g, v, r), off, Pedersen(g, dv, dr), dOff);
    PedersenAdd(g, v, r, dv, dr);
    ResidueOfResidue(r + dr, g.order);
    PedersenModulo(g, v + dv, r + dr, v + dv, (r + dr) % g.order);
  }

  /** A balance that is off by a difference opens as booked exactly when the difference is neutral. */
  lemma OpensIff<P(!new)>(g: Group<P>, v: int, r: int, off: P)
    requires Lawful(g)
    ensures g.add(Pedersen(g, v, r), off) == Pedersen(g, v, r) <==> off == g.zero
  {
    hide Pedersen;
    Neutral(g, Pedersen(g, v, r));
    if g.add(Pedersen(g, v, r), off) == Pedersen(g, v, r) {
      CancelCommitment(g, v, r, off, g.zero);
    }
  }

  /** One bank's part of a transfer. */
  lemma DriftGrows<P(!new)>(l: Library<P>, v: int, r: int, off: P, sender: nat, amount: int, receivers: seq<int>,
                            rs: seq<int>, i: nat)
    requires Lawful(l.g) && |receivers| == |rs| == BANKS && i < BANKS
    ensures var off' := if i == sender then off else l.g.add(off, Difference(l, receivers[i]));
            && l.g.add(l.g.add(Pedersen(l.g, v, r), off), TxCommit(l, sender, amount, receivers, rs, i))
               == l.g.add(Pedersen(l.g, v + ValueDelta(sender, amount, receivers, i),
                                   (r + RandomDelta(l.g.order, sender, rs, i)) % l.g.order), off')
            && (off == l.g.zero ==> (off' == l.g.zero <==> i == sender || Exact(l, receivers[i])))
  {
    hide Exact, TxCommit, RandomDelta, ValueDelta, Pedersen, Difference;
    var dOff := if i == sender then l.g.zero else Difference(l, receivers[i]);
    Booked(l.g, v, r, off, ValueDelta(sender, amount, receivers, i), RandomDelta(l.g.order, sender, rs, i), dOff);
    TxCommitDiffers(l, sender, amount, receivers, rs, i);
    Neutral(l.g, off);
    Neutral(l.g, dOff);
    GoCommitDiffers(l, receivers[i], 0);
  }

  lemma CancelCommitment<P(!new)>(g: Group<P>, v: int, r: int, x: P, y: P)
    requires Lawful(g) && g.add(Pedersen(g, v, r), x) == g.add(Pedersen(g, v, r), y)
    ensures x == y
  {
    PedersenAdd(g, -v, -r, v, r);
    PedersenZero(g);
    Associates(g, Pedersen(g, -v, -r), Pedersen(g, v, r), x);
    Associates(g, Pedersen(g, -v, -r), Pedersen(g, v, r), y);
    Neutral(g, x);
    Neutral(g, y);
  }
}
