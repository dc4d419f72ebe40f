/** Bilateral delivery versus payment: seller is party 2 with securities, buyer is party 1 with cash. */
module Dvp {
  import opened Wrappers
  import opened Amounts

  const BUYER: nat := 1
  const SELLER: nat := 2

  datatype Asset = Security | Cash
  datatype NoteStatus = Unspent | Locked | Spent
  datatype Origin = FromShielding | FromSettlement

  datatype Note = Note(owner: nat, asset: Asset, amount: int, origin: Origin, status: NoteStatus)

  datatype TermsStatus = Draft | Proposed | Agreed
  datatype Terms = Terms(status: TermsStatus, quantity: int, cashAmount: int, securityNote: Option<nat>,
                         cashNote: Option<nat>)

  datatype TransferStatus = AwaitingSecurity | TransferReverted | TransferSettled
  datatype Transfer = Transfer(id: nat, status: TransferStatus)

  datatype Settlement = Idle | AwaitingCounterparty | Settled | Reverted

  /** The `flow` fields of the DvP walkthrough and its note list. `cashLegs` holds the transfers whose lock-cash
      transaction exists; the two `minted` fields are history variables. */
  datatype State = State(terms: Terms, notes: seq<Note>,
                         sellerPublicSecurity: int, sellerShieldedSecurity: int,
                         buyerPrivateSecurity: int, buyerPublicSecurity: int,
                         buyerPublicCash: int, buyerShieldedCash: int, sellerPrivateCash: int,
                         securityLocked: bool, cashLocked: bool, settlement: Settlement,
                         transfer: Option<Transfer>, transferCount: nat, cashLegs: set<nat>,
                         mintedSecurity: int, mintedCash: int)

  const INITIAL := State(Terms(Draft, 100, 985000, None, None), [], 0, 0, 0, 0, 0, 0, 0, false, false, Idle, None, 0,
                         {}, 0, 0)

  datatype Action =
    | MintSecurity(amount: JsNumber)
    | MintCash(amount: JsNumber)
    | ShieldSecurity(amount: JsNumber)
    | ShieldCash(amount: JsNumber)
    | ProposeTerms(securityNote: nat, cashNote: nat)
    | AcceptTerms
    | Instantiate
    | LockSecurity
    | Timeout
    | Unshield

  predicate Holds(notes: seq<Note>, id: nat, owner: nat) {
    id < |notes| && notes[id].owner == owner && notes[id].status == Unspent
  }

  predicate HasStatus(notes: seq<Note>, id: Option<nat>, status: NoteStatus) {
    id.Some? && id.value < |notes| && notes[id.value].status == status
  }

  function SetStatus(notes: seq<Note>, id: nat, status: NoteStatus): (r: seq<Note>)
    requires id < |notes|
    ensures |r| == |notes|
  {
    notes[id := notes[id].(status := status)]
  }

  function MintSecurityStep(s: State, v: JsNumber): State {
    var amount := PositiveAmount(v);
    if s.terms.status != Draft || amount.None? then s
    else s.(sellerPublicSecurity := s.sellerPublicSecurity + amount.value,
            mintedSecurity := s.mintedSecurity + amount.value)
  }

  function MintCashStep(s: State, v: JsNumber): State {
    var amount := PositiveAmount(v);
    if s.terms.status != Draft || amount.None? then s
    else s.(buyerPublicCash := s.buyerPublicCash + amount.value, mintedCash := s.mintedCash + amount.value)
  }

  function ShieldSecurityStep(s: State, v: JsNumber): State {
    var amount := PositiveAmount(v);
    if s.terms.status != Draft || s.sellerPublicSecurity <= 0 || amount.None? || amount.value > s.sellerPublicSecurity
    then s
    else s.(sellerShieldedSecurity := s.sellerShieldedSecurity + amount.value,
            sellerPublicSecurity := s.sellerPublicSecurity - amount.value,
            notes := s.notes + [Note(SELLER, Security, amount.value, FromShielding, Unspent)])
  }

  function ShieldCashStep(s: State, v: JsNumber): State {
    var amount := PositiveAmount(v);
    if s.terms.status != Draft || s.buyerPublicCash <= 0 || amount.None? || amount.value > s.buyerPublicCash then s
    else s.(buyerShieldedCash := s.buyerShieldedCash + amount.value,
            buyerPublicCash := s.buyerPublicCash - amount.value,
            notes := s.notes + [Note(BUYER, Cash, amount.value, FromShielding, Unspent)])
  }

  /** The terms are the selected notes' amounts; the cash note's asset is not checked. */
  function ProposeStep(s: State, sec: nat, cash: nat): State {
    if s.terms.status != Draft || s.sellerShieldedSecurity <= 0 || s.buyerShieldedCash <= 0
       || !Holds(s.notes, sec, SELLER) || !Holds(s.notes, cash, BUYER) || s.notes[sec].asset != Security then s
    else s.(terms := Terms(Proposed, s.notes[sec].amount, s.notes[cash].amount, Some(sec), Some(cash)))
  }

  function AcceptStep(s: State): State {
    if s.terms.status != Proposed || !HasStatus(s.notes, s.terms.securityNote, Unspent)
       || !HasStatus(s.notes, s.terms.cashNote, Unspent) then s
    else s.(terms := s.terms.(status := Agreed))
  }

  predicate CanInstantiate(terms: Terms, transfer: Option<Transfer>, notes: seq<Note>) {
    terms.status == Agreed && !(transfer.Some? && transfer.value.status == AwaitingSecurity)
    && HasStatus(notes, terms.securityNote, Unspent) && HasStatus(notes, terms.cashNote, Unspent)
  }

  /** The buyer opens a transfer and locks the cash note. */
  function InstantiateStep(s: State): State {
    if !CanInstantiate(s.terms, s.transfer, s.notes) then s
    else
      var id := s.transferCount + 1;
      s.(transferCount := id, transfer := Some(Transfer(id, AwaitingSecurity)), cashLegs := s.cashLegs + {id},
         notes := SetStatus(s.notes, s.terms.cashNote.value, Locked),
         securityLocked := false, cashLocked := true, settlement := AwaitingCounterparty)
  }

  /** Both legs present: both inputs are spent and both outputs appear. */
  function SettleStep(s: State, sec: nat, cash: nat): State
    requires sec < |s.notes| && cash < |s.notes| && s.transfer.Some?
  {
    var notes := SetStatus(SetStatus(s.notes, sec, Spent), cash, Spent);
    s.(settlement := Settled, transfer := Some(s.transfer.value.(status := TransferSettled)),
       sellerShieldedSecurity := s.sellerShieldedSecurity - s.terms.quantity,
       buyerShieldedCash := s.buyerShieldedCash - s.terms.cashAmount,
       buyerPrivateSecurity := s.buyerPrivateSecurity + s.terms.quantity,
       sellerPrivateCash := s.sellerPrivateCash + s.terms.cashAmount,
       notes := if s.transfer.value.id !in s.cashLegs then notes
                else notes + [Note(BUYER, Security, s.terms.quantity, FromSettlement, Unspent),
                              Note(SELLER, Cash, s.terms.cashAmount, FromSettlement, Unspent)])
  }

  predicate CanLock(terms: Terms, transfer: Option<Transfer>, notes: seq<Note>, securityLocked: bool) {
    transfer.Some? && transfer.value.status == AwaitingSecurity && !securityLocked
    && HasStatus(notes, terms.securityNote, Unspent) && HasStatus(notes, terms.cashNote, Locked)
  }

  /** The seller's leg; it settles at once when the cash leg is locked. */
  function LockSecurityStep(s: State): State {
    if !CanLock(s.terms, s.transfer, s.notes, s.securityLocked) then s
    else
      var sec, cash := s.terms.securityNote.value, s.terms.cashNote.value;
      var s' := s.(securityLocked := true, settlement := AwaitingCounterparty,
                   notes := SetStatus(s.notes, sec, Locked));
      if s.cashLocked then SettleStep(s', sec, cash) else s'
  }

  function TimeoutStep(s: State): State {
    if s.securityLocked == s.cashLocked || s.settlement == Settled || s.transfer.None? then s
    else s.(securityLocked := false, cashLocked := false, settlement := Reverted,
            transfer := Some(s.transfer.value.(status := TransferReverted)),
            notes := if HasStatus(s.notes, s.terms.cashNote, Locked)
                     then SetStatus(s.notes, s.terms.cashNote.value, Unspent) else s.notes)
  }

  function UnshieldStep(s: State): State {
    if s.settlement != Settled || s.buyerPrivateSecurity < 25 then s
    else s.(buyerPrivateSecurity := s.buyerPrivateSecurity - 25, buyerPublicSecurity := s.buyerPublicSecurity + 25)
  }

  function Next(s: State, a: Action): State {
    match a
    case MintSecurity(v) => MintSecurityStep(s, v)
    case MintCash(v) => MintCashStep(s, v)
    case ShieldSecurity(v) => ShieldSecurityStep(s, v)
    case ShieldCash(v) => ShieldCashStep(s, v)
    case ProposeTerms(sec, cash) => ProposeStep(s, sec, cash)
    case AcceptTerms => AcceptStep(s)
    case Instantiate => InstantiateStep(s)
    case LockSecurity => LockSecurityStep(s)
    case Timeout => TimeoutStep(s)
    case Unshield => UnshieldStep(s)
  }

  function Run(actions: seq<Action>): State
    decreases |actions|
  {
    if actions == [] then INITIAL else Next(Run(actions[..|actions| - 1]), actions[|actions| - 1])
  }
}

/** Conservation, atomicity and the absorbing settlement of DvP, over all runs. */
module DvpSafety {
  import opened Amounts
  import opened Dvp

  function Held(n: Note, owner: nat, origin: Origin): int {
    if n.owner == owner && n.origin == origin && n.status != Spent then n.amount else 0
  }

  /** Value of an owner's notes of one origin that are not spent. */
  function HeldBy(notes: seq<Note>, owner: nat, origin: Origin): int {
    if notes == [] then 0 else Held(notes[0], owner, origin) + HeldBy(notes[1..], owner, origin)
  }

  lemma {:induction false} HeldAppend(notes: seq<Note>, n: Note, owner: nat, origin: Origin)
    ensures HeldBy(notes + [n], owner, origin) == HeldBy(notes, owner, origin) + Held(n, owner, origin)
  {
    if notes == [] {
      assert notes + [n] == [n];
    } else {
      HeldAppend(notes[1..], n, owner, origin);
      assert (notes + [n])[1..] == notes[1..] + [n];
    }
  }

  lemma {:induction false} HeldUpdate(notes: seq<Note>, i: nat, n: Note, owner: nat, origin: Origin)
    requires i < |notes|
    ensures HeldBy(notes[i := n], owner, origin)
         == HeldBy(notes, owner, origin) - Held(notes[i], owner, origin) + Held(n, owner, origin)
  {
    if i == 0 {
      assert notes[i := n][1..] == notes[1..];
    } else {
      HeldUpdate(notes[1..], i - 1, n, owner, origin);
      assert notes[i := n][1..] == notes[1..][i - 1 := n];
    }
  }

  // ---------- the invariant ----------

  ghost predicate NoteOk(n: Note) {
    n.amount > 0 && (n.owner == BUYER || n.owner == SELLER)
    && (n.origin == FromShielding ==> n.asset == if n.owner == SELLER then Security else Cash)
    && (n.origin == FromSettlement ==> n.status == Unspent && n.asset == if n.owner == BUYER then Security else Cash)
  }

  /** Each asset is conserved, and the shielded counters are the sums of the notes they stand for. */
  ghost predicate Balanced(s: State) {
    && s.mintedSecurity == s.sellerPublicSecurity + s.sellerShieldedSecurity + s.buyerPrivateSecurity
       + s.buyerPublicSecurity
    && s.mintedCash == s.buyerPublicCash + s.buyerShieldedCash + s.sellerPrivateCash
    && s.sellerShieldedSecurity == HeldBy(s.notes, SELLER, FromShielding)
    && s.buyerShieldedCash == HeldBy(s.notes, BUYER, FromShielding)
    && s.buyerPrivateSecurity + s.buyerPublicSecurity == HeldBy(s.notes, BUYER, FromSettlement)
    && s.sellerPrivateCash == HeldBy(s.notes, SELLER, FromSettlement)
    && s.sellerPublicSecurity >= 0 && s.buyerPublicCash >= 0 && s.buyerPrivateSecurity >= 0
       && s.buyerPublicSecurity >= 0
  }

  /** The input notes named by the terms, in the given states. */
  ghost predicate Inputs(s: State, security: NoteStatus, cash: NoteStatus) {
    && HasStatus(s.notes, s.terms.securityNote, security) && HasStatus(s.notes, s.terms.cashNote, cash)
    && var n, m := s.notes[s.terms.securityNote.value], s.notes[s.terms.cashNote.value];
       && n.owner == SELLER && n.origin == FromShielding && n.amount == s.terms.quantity
       && m.owner == BUYER && m.origin == FromShielding && m.amount == s.terms.cashAmount
  }

  /** Before agreement nothing is locked; afterwards the settlement state fixes both inputs and both flags. */
  ghost predicate Phase(s: State) {
    if s.terms.status == Draft then
      s.settlement == Idle && s.transfer.None? && !s.securityLocked && !s.cashLocked
      && forall i :: 0 <= i < |s.notes| ==> s.notes[i].origin == FromShielding && s.notes[i].status == Unspent
    else
      match s.settlement
      case Idle => s.transfer.None? && !s.securityLocked && !s.cashLocked && Inputs(s, Unspent, Unspent)
      case AwaitingCounterparty =>
        s.terms.status == Agreed && s.transfer.Some? && s.transfer.value.status == AwaitingSecurity
        && s.transfer.value.id in s.cashLegs && !s.securityLocked && s.cashLocked && Inputs(s, Unspent, Locked)
      case Reverted =>
        s.terms.status == Agreed && s.transfer.Some? && s.transfer.value.status == TransferReverted
        && !s.securityLocked && !s.cashLocked && Inputs(s, Unspent, Unspent)
      case Settled =>
        s.terms.status == Agreed && s.transfer.Some? && s.transfer.value.status == TransferSettled
        && s.securityLocked && s.cashLocked && Inputs(s, Spent, Spent)
  }

  ghost predicate Inv(s: State) {
    (forall i :: 0 <= i < |s.notes| ==> NoteOk(s.notes[i])) && Balanced(s) && Phase(s)
  }

  lemma ShieldInv(s: State, s': State, n: Note)
    requires Inv(s) && NoteOk(n) && n.origin == FromShielding && n.status == Unspent && s.terms.status == Draft
    requires s' == s.(notes := s.notes + [n], sellerShieldedSecurity := s'.sellerShieldedSecurity,
                      sellerPublicSecurity := s'.sellerPublicSecurity, buyerShieldedCash := s'.buyerShieldedCash,
                      buyerPublicCash := s'.buyerPublicCash)
    requires s'.sellerShieldedSecurity == s.sellerShieldedSecurity + Held(n, SELLER, FromShielding)
    requires s'.sellerPublicSecurity == s.sellerPublicSecurity - Held(n, SELLER, FromShielding) >= 0
    requires s'.buyerShieldedCash == s.buyerShieldedCash + Held(n, BUYER, FromShielding)
    requires s'.buyerPublicCash == s.buyerPublicCash - Held(n, BUYER, FromShielding) >= 0
    ensures Inv(s')
  {
    HeldAppend(s.notes, n, SELLER, FromShielding);
    HeldAppend(s.notes, n, BUYER, FromShielding);
    HeldAppend(s.notes, n, SELLER, FromSettlement);
    HeldAppend(s.notes, n, BUYER, FromSettlement);
  }

  /** Locking and unlocking a note moves no value. */
  lemma StatusKeepsHeld(notes: seq<Note>, i: nat, status: NoteStatus, owner: nat, origin: Origin)
    requires i < |notes| && notes[i].status != Spent && status != Spent
    ensures HeldBy(SetStatus(notes, i, status), owner, origin) == HeldBy(notes, owner, origin)
  {
    HeldUpdate(notes, i, notes[i].(status := status), owner, origin);
  }

  lemma RelockInv(s: State, s': State, status: NoteStatus)
    requires Inv(s) && s.terms.status == Agreed
    requires HasStatus(s.notes, s.terms.cashNote, if status == Locked then Unspent else Locked)
    requires status != Spent && s'.notes == SetStatus(s.notes, s.terms.cashNote.value, status)
    requires s' == s.(notes := s'.notes, securityLocked := s'.securityLocked, cashLocked := s'.cashLocked,
                      settlement := s'.settlement, transfer := s'.transfer, transferCount := s'.transferCount,
                      cashLegs := s'.cashLegs)
    requires Phase(s')
    ensures Inv(s')
  {
    var i := s.terms.cashNote.value;
    StatusKeepsHeld(s.notes, i, status, SELLER, FromShielding);
    StatusKeepsHeld(s.notes, i, status, BUYER, FromShielding);
    StatusKeepsHeld(s.notes, i, status, SELLER, FromSettlement);
    StatusKeepsHeld(s.notes, i, status, BUYER, FromSettlement);
    assert NoteOk(s.notes[i]);
  }

  lemma SettlementHeld(s: State, sec: nat, cash: nat, notes: seq<Note>, owner: nat, origin: Origin)
    requires sec < |s.notes| && cash < |s.notes| && sec != cash
    requires notes == SetStatus(SetStatus(SetStatus(s.notes, sec, Locked), sec, Spent), cash, Spent)
                      + [Note(BUYER, Security, s.terms.quantity, FromSettlement, Unspent),
                         Note(SELLER, Cash, s.terms.cashAmount, FromSettlement, Unspent)]
    requires s.notes[sec].status != Spent && s.notes[cash].status != Spent
    ensures HeldBy(notes, owner, origin) == HeldBy(s.notes, owner, origin)
            - Held(s.notes[sec], owner, origin) - Held(s.notes[cash], owner, origin)
            + Held(Note(BUYER, Security, s.terms.quantity, FromSettlement, Unspent), owner, origin)
            + Held(Note(SELLER, Cash, s.terms.cashAmount, FromSettlement, Unspent), owner, origin)
  {
    var a := SetStatus(s.notes, sec, Locked);
    var b := SetStatus(a, sec, Spent);
    var c := SetStatus(b, cash, Spent);
    HeldUpdate(s.notes, sec, s.notes[sec].(status := Locked), owner, origin);
    HeldUpdate(a, sec, a[sec].(status := Spent), owner, origin);
    HeldUpdate(b, cash, b[cash].(status := Spent), owner, origin);
    var x := Note(BUYER, Security, s.terms.quantity, FromSettlement, Unspent);
    var y := Note(SELLER, Cash, s.terms.cashAmount, FromSettlement, Unspent);
    HeldAppend(c, x, owner, origin);
    HeldAppend(c + [x], y, owner, origin);
    assert notes == c + [x] + [y];
  }

  lemma LockSecurityInv(s: State)
    requires Inv(s)
    ensures Inv(LockSecurityStep(s))
    ensures LockSecurityStep(s) != s ==> LockSecurityStep(s).settlement == Settled
  {
    var s' := LockSecurityStep(s);
    if s.settlement == AwaitingCounterparty && s.terms.status == Agreed {
      var sec, cash := s.terms.securityNote.value, s.terms.cashNote.value;
      assert NoteOk(s.notes[sec]) && NoteOk(s.notes[cash]);
      SettlementHeld(s, sec, cash, s'.notes, SELLER, FromShielding);
      SettlementHeld(s, sec, cash, s'.notes, BUYER, FromShielding);
      SettlementHeld(s, sec, cash, s'.notes, SELLER, FromSettlement);
      SettlementHeld(s, sec, cash, s'.notes, BUYER, FromSettlement);
    }
  }

  lemma NextInv(s: State, a: Action)
    requires Inv(s)
    ensures Inv(Next(s, a))
  {
    match a
    case ShieldSecurity(v) =>
      if Next(s, a) != s {
        ShieldInv(s, Next(s, a), Note(SELLER, Security, PositiveAmount(v).value, FromShielding, Unspent));
      }
    case ShieldCash(v) =>
      if Next(s, a) != s {
        ShieldInv(s, Next(s, a), Note(BUYER, Cash, PositiveAmount(v).value, FromShielding, Unspent));
      }
    case Instantiate =>
      if Next(s, a) != s {
        RelockInv(s, Next(s, a), Locked);
      }
    case LockSecurity => LockSecurityInv(s);
    case Timeout =>
      if Next(s, a) != s {
        RelockInv(s, Next(s, a), Unspent);
      }
    case _ =>
  }

  lemma {:induction false} RunInv(actions: seq<Action>)
    ensures Inv(Run(actions))
    decreases |actions|
  {
    if actions != [] {
      RunInv(actions[..|actions| - 1]);
      NextInv(Run(actions[..|actions| - 1]), actions[|actions| - 1]);
    }
  }

  lemma {:induction false} HeldNonnegative(notes: seq<Note>, owner: nat, origin: Origin)
    requires forall i :: 0 <= i < |notes| ==> NoteOk(notes[i])
    ensures HeldBy(notes, owner, origin) >= 0
  {
    if notes != [] {
      assert NoteOk(notes[0]);
      HeldNonnegative(notes[1..], owner, origin);
    }
  }

  // ---------- the theorems ----------

  /** Each asset is conserved across public, shielded and received balances; the shielded counters are the
      sums of the unspent or locked shielding notes, so the unchecked subtractions never go negative. */
  lemma Conservation(actions: seq<Action>)
    ensures var s := Run(actions);
            && Balanced(s)
            && s.sellerShieldedSecurity >= 0 && s.buyerShieldedCash >= 0 && s.sellerPrivateCash >= 0
  {
    RunInv(actions);
    var s := Run(actions);
    HeldNonnegative(s.notes, SELLER, FromShielding);
    HeldNonnegative(s.notes, BUYER, FromShielding);
    HeldNonnegative(s.notes, SELLER, FromSettlement);
  }

  /** No state has the security locked without the cash, and the two input notes are spent together or not
      at all. */
  lemma Atomicity(actions: seq<Action>)
    ensures var s := Run(actions);
            && (s.securityLocked ==> s.cashLocked && s.settlement == Settled)
            && (s.terms.status != Draft ==>
                  (HasStatus(s.notes, s.terms.securityNote, Spent) <==> HasStatus(s.notes, s.terms.cashNote, Spent)))
            && (s.terms.status != Draft && s.settlement == Settled <==>
                  s.terms.status != Draft && HasStatus(s.notes, s.terms.securityNote, Spent))
  {
    RunInv(actions);
  }

  /** Once settled, nothing but unshielding changes the state any more. */
  lemma SettledAbsorbs(actions: seq<Action>, a: Action)
    requires Run(actions).settlement == Settled
    ensures Next(Run(actions), a).settlement == Settled
    ensures !a.Unshield? ==> Next(Run(actions), a) == Run(actions)
  {
    RunInv(actions);
  }

  /** A timeout that applies undoes the instantiation: the note list is exactly what it was before the cash
      note was locked. */
  lemma {:induction false} TimeoutRestores(actions: seq<Action>)
    requires var s := Run(actions); Next(s, Instantiate) != s
    ensures var s := Run(actions);
            var s' := Next(Next(s, Instantiate), Timeout);
            s'.settlement == Reverted && s'.notes == s.notes && !s'.cashLocked && !s'.securityLocked
            && s'.buyerShieldedCash == s.buyerShieldedCash && s'.sellerShieldedSecurity == s.sellerShieldedSecurity
            && Next(s', Instantiate) != s'
  {
    RunInv(actions);
    Undone(Run(actions));
  }

  lemma Undone(s: State)
    requires Inv(s) && InstantiateStep(s) != s
    ensures var s' := TimeoutStep(InstantiateStep(s));
            s'.settlement == Reverted && s'.notes == s.notes && !s'.cashLocked && !s'.securityLocked
            && s'.buyerShieldedCash == s.buyerShieldedCash && s'.sellerShieldedSecurity == s.sellerShieldedSecurity
            && InstantiateStep(s') != s'
  {
    var c := s.terms.cashNote.value;
    var locked := SetStatus(s.notes, c, Locked);
    assert InstantiateStep(s).notes == locked;
    assert s.notes[c].(status := Unspent) == s.notes[c];
    assert SetStatus(locked, c, Unspent) == s.notes;
  }

  /** A timeout changes exactly the locked cash note, and applies exactly while the transfer waits for the
      seller. */
  lemma TimeoutExact(actions: seq<Action>)
    ensures var s := Run(actions);
            && (Next(s, Timeout) != s <==> s.settlement == AwaitingCounterparty)
            && (Next(s, Timeout) != s ==>
                  HasStatus(s.notes, s.terms.cashNote, Locked)
                  && Next(s, Timeout).notes == SetStatus(s.notes, s.terms.cashNote.value, Unspent))
  {
    RunInv(actions);
  }

  /** Whenever a transfer waits, the seller's leg settles it: never a lock without a settlement, and the cash
      leg it pairs with is always found. */
  lemma SellerLegSettles(actions: seq<Action>)
    ensures var s := Run(actions);
            var s' := Next(s, LockSecurity);
            s' != s <==> s.settlement == AwaitingCounterparty
    ensures var s := Run(actions);
            var s' := Next(s, LockSecurity);
            s' != s ==> s'.settlement == Settled && |s'.notes| == |s.notes| + 2
                        && s'.notes[|s.notes|] == Note(BUYER, Security, s.terms.quantity, FromSettlement, Unspent)
                        && s'.notes[|s.notes| + 1] == Note(SELLER, Cash, s.terms.cashAmount, FromSettlement, Unspent)
  {
    RunInv(actions);
  }
}
