/** The DvP cases of the engine as updates in place. Each method's new state is `Next` of the old one, so
    `DvpSafety` speaks about every sequence of calls. */
module DvpEngine {
  import opened Wrappers
  import opened Amounts
  import opened Dvp

  class Engine {
    var terms: Terms
    var notes: seq<Note>
    var sellerPublicSecurity: int
    var sellerShieldedSecurity: int
    var buyerPrivateSecurity: int
    var buyerPublicSecurity: int
    var buyerPublicCash: int
    var buyerShieldedCash: int
    var sellerPrivateCash: int
    var securityLocked: bool
    var cashLocked: bool
    var settlement: Settlement
    var transfer: Option<Transfer>
    var transferCount: nat
    var cashLegs: set<nat>
    ghost var mintedSecurity: int
    ghost var mintedCash: int

    ghost function View(): State
      reads this
    {
      State(terms, notes, sellerPublicSecurity, sellerShieldedSecurity, buyerPrivateSecurity, buyerPublicSecurity,
            buyerPublicCash, buyerShieldedCash, sellerPrivateCash, securityLocked, cashLocked, settlement, transfer,
            transferCount, cashLegs, mintedSecurity, mintedCash)
    }

    constructor ()
      ensures View() == INITIAL
    {
      terms, notes := Terms(Draft, 100, 985000, None, None), [];
      sellerPublicSecurity, sellerShieldedSecurity, buyerPrivateSecurity, buyerPublicSecurity := 0, 0, 0, 0;
      buyerPublicCash, buyerShieldedCash, sellerPrivateCash := 0, 0, 0;
      securityLocked, cashLocked, settlement := false, false, Idle;
      transfer, transferCount, cashLegs := None, 0, {};
      mintedSecurity, mintedCash := 0, 0;
    }

    method MintSecurity(v: JsNumber)
      modifies this
      ensures View() == Next(old(View()), Action.MintSecurity(v))
    {
      var amount := PositiveAmount(v);
      if terms.status != Draft || amount.None? { return; }
      sellerPublicSecurity := sellerPublicSecurity + amount.value;
      mintedSecurity := mintedSecurity + amount.value;
    }

    method MintCash(v: JsNumber)
      modifies this
      ensures View() == Next(old(View()), Action.MintCash(v))
    {
      var amount := PositiveAmount(v);
      if terms.status != Draft || amount.None? { return; }
      buyerPublicCash := buyerPublicCash + amount.value;
      mintedCash := mintedCash + amount.value;
    }

    method ShieldSecurity(v: JsNumber)
      modifies this
      ensures View() == Next(old(View()), Action.ShieldSecurity(v))
    {
      if terms.status != Draft || sellerPublicSecurity <= 0 { return; }
      var amount := PositiveAmount(v);
      if amount.None? || amount.value > sellerPublicSecurity { return; }
      sellerShieldedSecurity := sellerShieldedSecurity + amount.value;
      sellerPublicSecurity := sellerPublicSecurity - amount.value;
      notes := notes + [Note(SELLER, Security, amount.value, FromShielding, Unspent)];
    }

    method ShieldCash(v: JsNumber)
      modifies this
      ensures View() == Next(old(View()), Action.ShieldCash(v))
    {
      if terms.status != Draft || buyerPublicCash <= 0 { return; }
      var amount := PositiveAmount(v);
      if amount.None? || amount.value > buyerPublicCash { return; }
      buyerShieldedCash := buyerShieldedCash + amount.value;
      buyerPublicCash := buyerPublicCash - amount.value;
      notes := notes + [Note(BUYER, Cash, amount.value, FromShielding, Unspent)];
    }

    method ProposeTerms(sec: nat, cash: nat)
      modifies this
      ensures View() == Next(old(View()), Action.ProposeTerms(sec, cash))
    {
      if terms.status != Draft || sellerShieldedSecurity <= 0 || buyerShieldedCash <= 0 { return; }
      if !Holds(notes, sec, SELLER) || !Holds(notes, cash, BUYER) || notes[sec].asset != Security { return; }
      terms := Terms(Proposed, notes[sec].amount, notes[cash].amount, Some(sec), Some(cash));
    }

    method AcceptTerms()
      modifies this
      ensures View() == Next(old(View()), Action.AcceptTerms)
    {
      if terms.status != Proposed || !HasStatus(notes, terms.securityNote, Unspent)
         || !HasStatus(notes, terms.cashNote, Unspent) {
        return;
      }
      terms := terms.(status := Agreed);
    }

    method Instantiate()
      modifies this
      ensures View() == Next(old(View()), Action.Instantiate)
    {
      hide SetStatus, HasStatus;
      if !CanInstantiate(terms, transfer, notes) { return; }
      OpenTransfer();
      LockCash();
    }

    method OpenTransfer()
      modifies this`transferCount, this`transfer, this`cashLegs
      ensures var id := old(transferCount) + 1;
              transferCount == id && transfer == Some(Transfer(id, AwaitingSecurity))
              && cashLegs == old(cashLegs) + {id}
    {
      transferCount := transferCount + 1;
      transfer := Some(Transfer(transferCount, AwaitingSecurity));
      cashLegs := cashLegs + {transferCount};
    }

    method LockCash()
      requires HasStatus(notes, terms.cashNote, Unspent)
      modifies this`notes, this`securityLocked, this`cashLocked, this`settlement
      ensures notes == SetStatus(old(notes), terms.cashNote.value, Locked)
      ensures !securityLocked && cashLocked && settlement == AwaitingCounterparty
    {
      notes := SetStatus(notes, terms.cashNote.value, Locked);
      securityLocked, cashLocked, settlement := false, true, AwaitingCounterparty;
    }

    /** Lock the security leg and, if the cash leg is locked, settle both in the same call. */
    method LockSecurity()
      modifies this
      ensures View() == Next(old(View()), Action.LockSecurity)
    {
      hide SetStatus, SettleStep;
      if !CanLock(terms, transfer, notes, securityLocked) { return; }
      LockSecurityNote();
      if cashLocked {
        Settle(terms.securityNote.value, terms.cashNote.value);
      }
    }

    /** Both legs are present: spend both inputs, create both outputs, move the counters. */
    method Settle(sec: nat, cash: nat)
      requires sec < |notes| && cash < |notes| && transfer.Some?
      modifies this
      ensures View() == SettleStep(old(View()), sec, cash)
    {
      hide SetStatus;
      SettleNotes(sec, cash);
      SettleBalances();
    }

    method LockSecurityNote()
      requires HasStatus(notes, terms.securityNote, Unspent) && HasStatus(notes, terms.cashNote, Locked)
      modifies this`notes, this`securityLocked, this`settlement
      ensures notes == SetStatus(old(notes), terms.securityNote.value, Locked)
      ensures securityLocked && settlement == AwaitingCounterparty
    {
      securityLocked := true;
      settlement := AwaitingCounterparty;
      notes := SetStatus(notes, terms.securityNote.value, Locked);
    }

    method SettleNotes(sec: nat, cash: nat)
      requires sec < |notes| && cash < |notes| && transfer.Some?
      modifies this`notes
      ensures var spent := SetStatus(SetStatus(old(notes), sec, Spent), cash, Spent);
              notes == if transfer.value.id !in cashLegs then spent
                       else spent + [Note(BUYER, Security, terms.quantity, FromSettlement, Unspent),
                                     Note(SELLER, Cash, terms.cashAmount, FromSettlement, Unspent)]
    {
      notes := SetStatus(notes, sec, Spent);
      notes := SetStatus(notes, cash, Spent);
      if transfer.value.id in cashLegs {
        notes := notes + [Note(BUYER, Security, terms.quantity, FromSettlement, Unspent),
                          Note(SELLER, Cash, terms.cashAmount, FromSettlement, Unspent)];
      }
    }

    method SettleBalances()
      requires transfer.Some?
      modifies this`settlement, this`transfer, this`sellerShieldedSecurity, this`buyerShieldedCash,
               this`buyerPrivateSecurity, this`sellerPrivateCash
      ensures settlement == Settled && transfer == Some(old(transfer).value.(status := TransferSettled))
      ensures sellerShieldedSecurity == old(sellerShieldedSecurity) - terms.quantity
      ensures buyerShieldedCash == old(buyerShieldedCash) - terms.cashAmount
      ensures buyerPrivateSecurity == old(buyerPrivateSecurity) + terms.quantity
      ensures sellerPrivateCash == old(sellerPrivateCash) + terms.cashAmount
    {
      settlement := Settled;
      transfer := Some(transfer.value.(status := TransferSettled));
      sellerShieldedSecurity := sellerShieldedSecurity - terms.quantity;
      buyerShieldedCash := buyerShieldedCash - terms.cashAmount;
      buyerPrivateSecurity := buyerPrivateSecurity + terms.quantity;
      sellerPrivateCash := sellerPrivateCash + terms.cashAmount;
    }

    method Timeout()
      modifies this
      ensures View() == Next(old(View()), Action.Timeout)
    {
      hide SetStatus;
      if securityLocked == cashLocked || settlement == Settled || transfer.None? { return; }
      Revert();
      if HasStatus(notes, terms.cashNote, Locked) {
        notes := SetStatus(notes, terms.cashNote.value, Unspent);
      }
    }

    method Revert()
      requires transfer.Some?
      modifies this`securityLocked, this`cashLocked, this`settlement, this`transfer
      ensures !securityLocked && !cashLocked && settlement == Reverted
      ensures transfer == Some(old(transfer).value.(status := TransferReverted))
    {
      securityLocked, cashLocked, settlement := false, false, Reverted;
      transfer := Some(transfer.value.(status := TransferReverted));
    }

    method Unshield()
      modifies this
      ensures View() == Next(old(View()), Action.Unshield)
    {
      if settlement != Settled || buyerPrivateSecurity < 25 { return; }
      buyerPrivateSecurity := buyerPrivateSecurity - 25;
      buyerPublicSecurity := buyerPublicSecurity + 25;
    }
  }
}
