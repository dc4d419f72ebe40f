/** When each DvP action applies, and what a trade leaves with the two parties. */
module DvpOutcomes {
  import opened Wrappers
  import opened Amounts
  import opened Dvp
  import opened DvpSafety

  lemma RunExtend(actions: seq<Action>, a: Action)
    ensures Run(actions + [a]) == Next(Run(actions), a)
  {
    assert (actions + [a])[..|actions|] == actions;
  }

  /** The conditions of every action in terms of the phase. The checks that this leaves out never decide. */
  predicate Applies(s: State, a: Action) {
    match a
    case MintSecurity(v) => s.terms.status == Draft && v.Finite? && v.r >= 0.5
    case MintCash(v) => s.terms.status == Draft && v.Finite? && v.r >= 0.5
    case ShieldSecurity(v) =>
      s.terms.status == Draft && v.Finite? && v.r >= 0.5 && PositiveAmount(v).value <= s.sellerPublicSecurity
    case ShieldCash(v) =>
      s.terms.status == Draft && v.Finite? && v.r >= 0.5 && PositiveAmount(v).value <= s.buyerPublicCash
    case ProposeTerms(sec, cash) => s.terms.status == Draft && OwnedBy(s, sec, SELLER) && OwnedBy(s, cash, BUYER)
    case AcceptTerms => s.terms.status == Proposed
    case Instantiate => s.terms.status == Agreed && (s.settlement == Idle || s.settlement == Reverted)
    case LockSecurity => s.settlement == AwaitingCounterparty
    case Timeout => s.settlement == AwaitingCounterparty
    case Unshield => s.settlement == Settled && s.buyerPrivateSecurity >= 25
  }

  predicate OwnedBy(s: State, n: nat, owner: nat) {
    n < |s.notes| && s.notes[n].owner == owner
  }

  /** A note makes its owner's holdings positive. */
  lemma {:induction false} HeldPositive(notes: seq<Note>, i: nat)
    requires i < |notes| && notes[i].status != Spent && forall j :: 0 <= j < |notes| ==> NoteOk(notes[j])
    ensures HeldBy(notes, notes[i].owner, notes[i].origin) > 0
  {
    assert NoteOk(notes[0]) && NoteOk(notes[i]);
    if i > 0 {
      HeldPositive(notes[1..], i - 1);
    } else {
      HeldNonnegative(notes[1..], notes[0].owner, notes[0].origin);
    }
  }

  /** In every reached state an action changes something exactly under these conditions. */
  lemma AppliesIff(actions: seq<Action>, a: Action)
    ensures Next(Run(actions), a) != Run(actions) <==> Applies(Run(actions), a)
  {
    hide Run, Balanced, HeldBy;
    RunInv(actions);
    var s := Run(actions);
    if a.ProposeTerms? {
      ProposeIff(s, a.securityNote, a.cashNote);
    }
  }

  lemma ProposeIff(s: State, sec: nat, cash: nat)
    requires Inv(s)
    ensures ProposeStep(s, sec, cash) != s <==>
            s.terms.status == Draft && OwnedBy(s, sec, SELLER) && OwnedBy(s, cash, BUYER)
  {
    hide HeldBy;
    if s.terms.status == Draft && OwnedBy(s, sec, SELLER) && OwnedBy(s, cash, BUYER) {
      HeldPositive(s.notes, sec);
      HeldPositive(s.notes, cash);
      assert NoteOk(s.notes[sec]);
    }
  }

  /** Minting and shielding move exactly the rounded amount: into the party's public balance, and from there into one
      more unspent note. */
  lemma HoldingsMove(actions: seq<Action>, v: JsNumber)
    requires v.Finite? && v.r >= 0.5
    ensures var s, x := Run(actions), PositiveAmount(v).value;
            && (Applies(s, MintSecurity(v)) ==>
                  Next(s, MintSecurity(v)) == s.(sellerPublicSecurity := s.sellerPublicSecurity + x,
                                                 mintedSecurity := s.mintedSecurity + x))
            && (Applies(s, MintCash(v)) ==>
                  Next(s, MintCash(v)) == s.(buyerPublicCash := s.buyerPublicCash + x, mintedCash := s.mintedCash + x))
            && (Applies(s, ShieldSecurity(v)) ==>
                  Next(s, ShieldSecurity(v))
                  == s.(sellerPublicSecurity := s.sellerPublicSecurity - x,
                        sellerShieldedSecurity := s.sellerShieldedSecurity + x,
                        notes := s.notes + [Note(SELLER, Security, x, FromShielding, Unspent)]))
            && (Applies(s, ShieldCash(v)) ==>
                  Next(s, ShieldCash(v))
                  == s.(buyerPublicCash := s.buyerPublicCash - x, buyerShieldedCash := s.buyerShieldedCash + x,
                        notes := s.notes + [Note(BUYER, Cash, x, FromShielding, Unspent)]))
  {
  }

  // ---------- a trade ----------

  function Trade(sec: nat, cash: nat): seq<Action> {
    [ProposeTerms(sec, cash), AcceptTerms, Instantiate, LockSecurity]
  }

  /** Both input notes are spent, the buyer gets the security note's amount and the seller the cash note's, and no other
      note or public balance changes. */
  ghost predicate Traded(s: State, s': State, sec: nat, cash: nat) {
    && sec < |s.notes| && cash < |s.notes| && sec != cash
    && var q, c := s.notes[sec].amount, s.notes[cash].amount;
       && s'.notes == s.notes[sec := s.notes[sec].(status := Spent)][cash := s.notes[cash].(status := Spent)]
                      + [Note(BUYER, Security, q, FromSettlement, Unspent),
                         Note(SELLER, Cash, c, FromSettlement, Unspent)]
       && s' == s.(terms := Terms(Agreed, q, c, Some(sec), Some(cash)), notes := s'.notes,
                   sellerShieldedSecurity := s.sellerShieldedSecurity - q, buyerShieldedCash := s.buyerShieldedCash - c,
                   buyerPrivateSecurity := s.buyerPrivateSecurity + q, sellerPrivateCash := s.sellerPrivateCash + c,
                   securityLocked := true, cashLocked := true, settlement := Settled,
                   transfer := Some(Transfer(s.transferCount + 1, TransferSettled)),
                   transferCount := s.transferCount + 1, cashLegs := s.cashLegs + {s.transferCount + 1})
  }

  /** Proposed terms, in every reached state, can be accepted, and that changes their status alone. */
  lemma AcceptAgrees(actions: seq<Action>)
    requires Run(actions).terms.status == Proposed
    ensures var s := Run(actions); Next(s, AcceptTerms) == s.(terms := s.terms.(status := Agreed))
  {
    hide Run;
    RunInv(actions);
  }

  /** Agreed terms that no transfer is waiting on can be settled by instantiating and locking. */
  lemma AgreedSettles(s: State)
    requires Inv(s) && s.terms.status == Agreed && (s.settlement == Idle || s.settlement == Reverted)
    ensures Inputs(s, Unspent, Unspent)
    ensures var s', sec, cash := Next(Next(s, Instantiate), LockSecurity), s.terms.securityNote.value,
                                 s.terms.cashNote.value;
            && s'.settlement == Settled && sec != cash
            && s' == s.(notes := s'.notes, sellerShieldedSecurity := s.sellerShieldedSecurity - s.terms.quantity,
                        buyerShieldedCash := s.buyerShieldedCash - s.terms.cashAmount,
                        buyerPrivateSecurity := s.buyerPrivateSecurity + s.terms.quantity,
                        sellerPrivateCash := s.sellerPrivateCash + s.terms.cashAmount,
                        securityLocked := true, cashLocked := true, settlement := Settled,
                        transfer := Some(Transfer(s.transferCount + 1, TransferSettled)),
                        transferCount := s.transferCount + 1, cashLegs := s.cashLegs + {s.transferCount + 1})
            && s'.notes == s.notes[sec := s.notes[sec].(status := Spent)][cash := s.notes[cash].(status := Spent)]
                           + [Note(BUYER, Security, s.terms.quantity, FromSettlement, Unspent),
                              Note(SELLER, Cash, s.terms.cashAmount, FromSettlement, Unspent)]
  {
    hide Balanced, NoteOk;
    var sec, cash := s.terms.securityNote.value, s.terms.cashNote.value;
    var s1 := Next(s, Instantiate);
    assert s1.notes == s.notes[cash := s.notes[cash].(status := Locked)];
    assert s1.notes[sec] == s.notes[sec];
  }

  /** From every reached state without terms, any note of the seller and any note of the buyer can be traded. */
  lemma {:induction false} TradeSettles(actions: seq<Action>, sec: nat, cash: nat)
    requires var s := Run(actions); s.terms.status == Draft && OwnedBy(s, sec, SELLER) && OwnedBy(s, cash, BUYER)
    ensures Traded(Run(actions), Run(actions + Trade(sec, cash)), sec, cash)
  {
    hide Run, Next, HeldBy, Balanced;
    var s, t := Run(actions), Trade(sec, cash);
    RunInv(actions);
    RunExtend(actions, t[0]);
    RunExtend(actions + [t[0]], t[1]);
    RunExtend(actions + [t[0]] + [t[1]], t[2]);
    RunExtend(actions + [t[0]] + [t[1]] + [t[2]], t[3]);
    assert actions + t == actions + [t[0]] + [t[1]] + [t[2]] + [t[3]];
    Proposes(s, sec, cash);
    AcceptAgrees(actions + [t[0]]);
    RunInv(actions + [t[0]] + [t[1]]);
    AgreedSettles(Run(actions + [t[0]] + [t[1]]));
  }

  lemma Proposes(s: State, sec: nat, cash: nat)
    requires Inv(s) && s.terms.status == Draft && OwnedBy(s, sec, SELLER) && OwnedBy(s, cash, BUYER)
    ensures Next(s, ProposeTerms(sec, cash))
         == s.(terms := Terms(Proposed, s.notes[sec].amount, s.notes[cash].amount, Some(sec), Some(cash)))
    ensures s.settlement == Idle
  {
    hide HeldBy, Balanced;
    ProposeIff(s, sec, cash);
  }

  /** A whole walkthrough, for any positive amounts: what was shielded has changed hands, the rest stayed public. */
  lemma {:induction false} WalkthroughTrades(security: JsNumber, cash: JsNumber, shieldedSecurity: JsNumber,
                                             shieldedCash: JsNumber)
    requires PositiveAmount(security).Some? && PositiveAmount(cash).Some?
    requires PositiveAmount(shieldedSecurity).Some? && PositiveAmount(shieldedCash).Some?
    requires PositiveAmount(shieldedSecurity).value <= PositiveAmount(security).value
    requires PositiveAmount(shieldedCash).value <= PositiveAmount(cash).value
    ensures var s := Run([MintSecurity(security), MintCash(cash), ShieldSecurity(shieldedSecurity),
                          ShieldCash(shieldedCash)] + Trade(0, 1));
            var q, c := PositiveAmount(shieldedSecurity).value, PositiveAmount(shieldedCash).value;
            && s.settlement == Settled && s.terms.status == Agreed
            && s.buyerPrivateSecurity == q && s.sellerPrivateCash == c
            && s.sellerShieldedSecurity == 0 && s.buyerShieldedCash == 0
            && s.sellerPublicSecurity == PositiveAmount(security).value - q
            && s.buyerPublicCash == PositiveAmount(cash).value - c && s.buyerPublicSecurity == 0
            && s.notes == [Note(SELLER, Security, q, FromShielding, Spent), Note(BUYER, Cash, c, FromShielding, Spent),
                           Note(BUYER, Security, q, FromSettlement, Unspent),
                           Note(SELLER, Cash, c, FromSettlement, Unspent)]
  {
    hide Run, PositiveAmount;
    var actions := [MintSecurity(security), MintCash(cash), ShieldSecurity(shieldedSecurity), ShieldCash(shieldedCash)];
    Holdings(security, cash, shieldedSecurity, shieldedCash);
    TradeSettles(actions, 0, 1);
  }

  lemma {:induction false} Holdings(security: JsNumber, cash: JsNumber, shieldedSecurity: JsNumber,
                                    shieldedCash: JsNumber)
    requires PositiveAmount(security).Some? && PositiveAmount(cash).Some?
    requires PositiveAmount(shieldedSecurity).Some? && PositiveAmount(shieldedCash).Some?
    requires PositiveAmount(shieldedSecurity).value <= PositiveAmount(security).value
    requires PositiveAmount(shieldedCash).value <= PositiveAmount(cash).value
    ensures var s := Run([MintSecurity(security), MintCash(cash), ShieldSecurity(shieldedSecurity),
                          ShieldCash(shieldedCash)]);
            var q, c := PositiveAmount(shieldedSecurity).value, PositiveAmount(shieldedCash).value;
            && s.terms.status == Draft
            && s.notes == [Note(SELLER, Security, q, FromShielding, Unspent),
                           Note(BUYER, Cash, c, FromShielding, Unspent)]
            && s.sellerShieldedSecurity == q && s.buyerShieldedCash == c
            && s.sellerPublicSecurity == PositiveAmount(security).value - q
            && s.buyerPublicCash == PositiveAmount(cash).value - c
            && s.buyerPrivateSecurity == 0 && s.sellerPrivateCash == 0 && s.buyerPublicSecurity == 0
  {
    hide PositiveAmount, Run, Next;
    var a, b := MintSecurity(security), MintCash(cash);
    var x, y := ShieldSecurity(shieldedSecurity), ShieldCash(shieldedCash);
    assert Run([]) == INITIAL by { EmptyRun(); }
    RunExtend([], a);
    RunExtend([a], b);
    RunExtend([a, b], x);
    RunExtend([a, b, x], y);
    assert [] + [a] == [a] && [a] + [b] == [a, b] && [a, b] + [x] == [a, b, x] && [a, b, x] + [y] == [a, b, x, y];
    HoldingsMove([], security);
    HoldingsMove([a], cash);
    HoldingsMove([a, b], shieldedSecurity);
    HoldingsMove([a, b, x], shieldedCash);
  }

  lemma EmptyRun()
    ensures Run([]) == INITIAL
  {
  }

  /** Unshielding after settlement moves 25 units from the buyer's private to its public balance, as often as there
      are 25 left. */
  lemma UnshieldMoves(actions: seq<Action>)
    ensures var s, s' := Run(actions), Next(Run(actions), Unshield);
            if s.settlement == Settled && s.buyerPrivateSecurity >= 25 then
              s' == s.(buyerPrivateSecurity := s.buyerPrivateSecurity - 25,
                       buyerPublicSecurity := s.buyerPublicSecurity + 25)
            else s' == s
  {
  }
}
