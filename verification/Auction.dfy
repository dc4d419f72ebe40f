/** The sealed-bid auction: engine guards, UI guards, and what settlement pays. */
module Auction {
  import opened Wrappers
  import opened Amounts

  const VISITOR: nat := 0
  const SELLER: nat := 2

  datatype Asset = ClassA | Usd
  datatype NoteStatus = Unspent | Locked | Spent
  datatype Origin = AuctionAsset | Funding | Change | Output | Recovery

  datatype Note = Note(owner: nat, asset: Asset, amount: int, origin: Origin, status: NoteStatus)

  datatype BidStatus = Active | Won | Recovered

  /** A bid's id is derived from its bidder alone, so the bidder stands for the id. */
  datatype Bid = Bid(bidder: nat, amount: int, inputNote: Option<nat>, status: BidStatus)

  datatype Status = Draft | Bidding | Closed | Announced | Settled

  datatype Winner = Winner(bidder: nat, amount: int)

  datatype State = State(keyGenerated: bool, registered: bool, nftMinted: bool, assetQuantity: int,
                         sellerPublicNft: int,
                         listed: bool, nftNote: Option<nat>, publicCash: int, privateCash: int, bids: seq<Bid>,
                         otherBidsCollected: bool, status: Status, winner: Option<Winner>, challengeOpen: bool,
                         settlement: Option<Winner>, notes: seq<Note>)

  const INITIAL := State(false, false, false, 0, 0, false, None, 0, 0, [], false, Draft, None, false, None, [])

  datatype Action =
    | GenerateKey
    | RegisterAuctioneer
    | MintNft(quantity: JsNumber)
    | ListAsset
    | MintCash(amount: JsNumber)
    | ShieldCash(amount: JsNumber)
    | SubmitBid(note: nat, amount: JsNumber)
    | CollectBids
    | CloseBidding
    | ProveWinner
    | Challenge
    | Settle

  const OTHER_BIDS := [Bid(1, 420, None, Active), Bid(3, 575, None, Active), Bid(4, 610, None, Active),
                       Bid(5, 540, None, Active)]

  function FindBid(bids: seq<Bid>, bidder: nat): (r: Option<Bid>)
    ensures r.Some? ==> r.value in bids && r.value.bidder == bidder
    ensures r.None? ==> forall i :: 0 <= i < |bids| ==> bids[i].bidder != bidder
  {
    if bids == [] then None else if bids[0].bidder == bidder then Some(bids[0]) else FindBid(bids[1..], bidder)
  }

  /** The reduction that keeps the first largest active bid. */
  function BestFrom(bids: seq<Bid>, best: Option<Bid>): Option<Bid> {
    if bids == [] then best
    else if bids[0].status == Active && (best.None? || bids[0].amount > best.value.amount)
    then BestFrom(bids[1..], Some(bids[0]))
    else BestFrom(bids[1..], best)
  }

  function Losers(bids: seq<Bid>, winner: nat): seq<Bid> {
    if bids == [] then []
    else (if bids[0].bidder != winner && bids[0].status == Active then [bids[0]] else []) + Losers(bids[1..], winner)
  }

  function Recoveries(losers: seq<Bid>): seq<Note> {
    if losers == [] then []
    else [Note(losers[0].bidder, Usd, losers[0].amount, Recovery, Unspent)] + Recoveries(losers[1..])
  }

  function Decided(bids: seq<Bid>, winner: nat): seq<Bid> {
    if bids == [] then []
    else [bids[0].(status := if bids[0].bidder == winner then Won else Recovered)] + Decided(bids[1..], winner)
  }

  function SpendAt(notes: seq<Note>, id: Option<nat>): (r: seq<Note>)
    ensures |r| == |notes|
  {
    if id.Some? && id.value < |notes| then notes[id.value := notes[id.value].(status := Spent)] else notes
  }

  function SpendInputs(notes: seq<Note>, bids: seq<Bid>): (r: seq<Note>)
    ensures |r| == |notes|
    decreases |bids|
  {
    if bids == [] then notes else SpendInputs(SpendAt(notes, bids[0].inputNote), bids[1..])
  }

  predicate CanBid(s: State, note: nat, v: JsNumber) {
    && s.status == Bidding
    && note < |s.notes| && s.notes[note].owner == VISITOR && s.notes[note].origin == Funding
       && s.notes[note].status == Unspent
    && PositiveAmount(v).Some? && PositiveAmount(v).value <= s.notes[note].amount
  }

  function SubmitStep(s: State, note: nat, v: JsNumber): State {
    if !CanBid(s, note, v) then s
    else
      var amount := PositiveAmount(v).value;
      var change := s.notes[note].amount - amount;
      var spent := SpendAt(s.notes, Some(note));
      s.(privateCash := s.privateCash - amount,
         notes := if change > 0 then spent + [Note(VISITOR, Usd, change, Change, Unspent)] else spent,
         bids := s.bids + [Bid(VISITOR, amount, Some(note), Active)])
  }

  /** The notes that settlement creates: the certificate, the seller's proceeds, one recovery per loser. */
  function Outputs(s: State, winner: Bid): seq<Note> {
    [Note(winner.bidder, ClassA, s.assetQuantity, Output, Unspent), Note(SELLER, Usd, winner.amount, Output, Unspent)]
    + Recoveries(Losers(s.bids, winner.bidder))
  }

  function SettleStep(s: State): State {
    if s.winner.None? || s.settlement.Some? || FindBid(s.bids, s.winner.value.bidder).None? then s
    else
      var winner := FindBid(s.bids, s.winner.value.bidder).value;
      var visitor := FindBid(s.bids, VISITOR);
      s.(notes := SpendInputs(SpendAt(s.notes, s.nftNote), s.bids) + Outputs(s, winner),
         bids := Decided(s.bids, winner.bidder),
         privateCash := s.privateCash + (if winner.bidder != VISITOR && visitor.Some? then visitor.value.amount else 0),
         challengeOpen := false, status := Settled, settlement := s.winner)
  }

  function Next(s: State, a: Action): State {
    match a
    case GenerateKey => s.(keyGenerated := true)
    case RegisterAuctioneer => if s.keyGenerated then s.(registered := true) else s
    case MintNft(v) =>
      var quantity := PositiveAmount(v);
      if !s.registered || quantity.None? then s
      else s.(nftMinted := true, assetQuantity := quantity.value, sellerPublicNft := quantity.value)
    case ListAsset =>
      if !s.nftMinted || s.sellerPublicNft != s.assetQuantity then s
      else s.(sellerPublicNft := 0, listed := true, status := Bidding, nftNote := Some(|s.notes|),
              notes := s.notes + [Note(SELLER, ClassA, s.assetQuantity, AuctionAsset, Locked)])
    case MintCash(v) =>
      var amount := PositiveAmount(v);
      if !s.listed || amount.None? then s else s.(publicCash := s.publicCash + amount.value)
    case ShieldCash(v) =>
      var amount := PositiveAmount(v);
      if amount.None? || amount.value > s.publicCash then s
      else s.(publicCash := s.publicCash - amount.value, privateCash := s.privateCash + amount.value,
              notes := s.notes + [Note(VISITOR, Usd, amount.value, Funding, Unspent)])
    case SubmitBid(note, v) => SubmitStep(s, note, v)
    case CollectBids =>
      if FindBid(s.bids, VISITOR).None? || s.otherBidsCollected then s
      else s.(bids := s.bids + OTHER_BIDS, otherBidsCollected := true)
    case CloseBidding => if |s.bids| < 2 then s else s.(status := Closed)
    case ProveWinner =>
      var best := BestFrom(s.bids, None);
      if s.status != Closed || best.None? then s
      else s.(winner := Some(Winner(best.value.bidder, best.value.amount)), status := Announced)
    case Challenge => if s.winner.None? || s.settlement.Some? then s else s.(challengeOpen := true)
    case Settle => SettleStep(s)
  }

  /** Which buttons the walkthrough offers. */
  predicate UiEnabled(s: State, a: Action) {
    var userBid := FindBid(s.bids, VISITOR).Some?;
    match a
    case GenerateKey => !s.keyGenerated
    case RegisterAuctioneer => s.keyGenerated && !s.registered
    case MintNft(_) => s.registered && !s.nftMinted
    case ListAsset => s.nftMinted && !s.listed
    case MintCash(_) => true
    case ShieldCash(_) => !userBid
    case SubmitBid(_, _) => !userBid && s.status == Bidding
    case CollectBids => !s.otherBidsCollected && userBid
    case CloseBidding => s.otherBidsCollected && s.status == Bidding
    case ProveWinner => s.winner.None? && s.status == Closed
    case Challenge => s.winner.Some? && s.settlement.None? && !s.challengeOpen
    case Settle => s.winner.Some? && s.settlement.None?
  }

  /** A run through the walkthrough: disabled buttons do nothing. */
  function UiRun(actions: seq<Action>): State
    decreases |actions|
  {
    if actions == [] then INITIAL
    else
      var s, a := UiRun(actions[..|actions| - 1]), actions[|actions| - 1];
      if UiEnabled(s, a) then Next(s, a) else s
  }

  /** A run against the engine alone. */
  function EngineRun(actions: seq<Action>): State
    decreases |actions|
  {
    if actions == [] then INITIAL else Next(EngineRun(actions[..|actions| - 1]), actions[|actions| - 1])
  }
}

/** Auction laws. */
module AuctionSafety {
  import opened Wrappers
  import opened Amounts
  import opened Auction

  function BidTotal(bids: seq<Bid>): int {
    if bids == [] then 0 else bids[0].amount + BidTotal(bids[1..])
  }

  function UsdTotal(notes: seq<Note>): int {
    if notes == [] then 0 else (if notes[0].asset == Usd then notes[0].amount else 0) + UsdTotal(notes[1..])
  }

  function Cash(n: Note): int {
    if n.owner == VISITOR && n.asset == Usd && n.status == Unspent then n.amount else 0
  }

  /** The visitor's unspent USD notes. */
  function VisitorCash(notes: seq<Note>): int {
    if notes == [] then 0 else Cash(notes[0]) + VisitorCash(notes[1..])
  }

  /** The lookup by id finds the first bid that carries it. */
  lemma {:induction false} FindsFirst(bids: seq<Bid>, i: nat)
    requires i < |bids| && forall j :: 0 <= j < i ==> bids[j].bidder != bids[i].bidder
    ensures FindBid(bids, bids[i].bidder) == Some(bids[i])
  {
    if i > 0 {
      FindsFirst(bids[1..], i - 1);
    }
  }

  // ---------- the winner ----------

  lemma {:induction false} BestIsMaximal(bids: seq<Bid>, best: Option<Bid>)
    ensures var r := BestFrom(bids, best);
            && (r.Some? ==> r == best || (r.value in bids && r.value.status == Active))
            && (best.Some? ==> r.Some? && best.value.amount <= r.value.amount)
            && (forall i :: 0 <= i < |bids| && bids[i].status == Active ==> r.Some? && bids[i].amount <= r.value.amount)
  {
    if bids != [] {
      var next := if bids[0].status == Active && (best.None? || bids[0].amount > best.value.amount)
                  then Some(bids[0]) else best;
      BestIsMaximal(bids[1..], next);
      var r := BestFrom(bids, best);
      forall i | 0 <= i < |bids| && bids[i].status == Active ensures r.Some? && bids[i].amount <= r.value.amount {
        if i > 0 {
          assert bids[i] == bids[1..][i - 1];
        }
      }
    }
  }

  // ---------- settlement payouts, for any engine state ----------

  lemma {:induction false} RecoveriesPay(losers: seq<Bid>)
    ensures |Recoveries(losers)| == |losers| && UsdTotal(Recoveries(losers)) == BidTotal(losers)
    ensures forall i :: 0 <= i < |losers| ==>
              Recoveries(losers)[i] == Note(losers[i].bidder, Usd, losers[i].amount, Recovery, Unspent)
  {
    if losers != [] {
      RecoveriesPay(losers[1..]);
    }
  }

  lemma {:induction false} DecidedAt(bids: seq<Bid>, winner: nat)
    ensures |Decided(bids, winner)| == |bids|
    ensures forall i :: 0 <= i < |bids| ==>
              Decided(bids, winner)[i] == bids[i].(status := if bids[i].bidder == winner then Won else Recovered)
  {
    if bids != [] {
      DecidedAt(bids[1..], winner);
    }
  }

  /** Amounts of the bids that carry one id. */
  function ClaimTotal(bids: seq<Bid>, bidder: nat): int {
    if bids == [] then 0 else (if bids[0].bidder == bidder then bids[0].amount else 0) + ClaimTotal(bids[1..], bidder)
  }

  lemma {:induction false} LosersTotal(bids: seq<Bid>, winner: nat)
    requires forall i :: 0 <= i < |bids| ==> bids[i].status == Active
    ensures BidTotal(Losers(bids, winner)) == BidTotal(bids) - ClaimTotal(bids, winner)
  {
    if bids != [] {
      LosersTotal(bids[1..], winner);
      var rest := Losers(bids[1..], winner);
      if bids[0].bidder != winner {
        assert Losers(bids, winner) == [bids[0]] + rest;
      } else {
        assert Losers(bids, winner) == rest;
      }
    }
  }

  /** How many bids carry an id. */
  function Claims(bids: seq<Bid>, bidder: nat): nat {
    if bids == [] then 0 else (if bids[0].bidder == bidder then 1 else 0) + Claims(bids[1..], bidder)
  }

  lemma {:induction false} ClaimBounds(bids: seq<Bid>, bidder: nat)
    requires forall i :: 0 <= i < |bids| ==> bids[i].amount > 0
    ensures ClaimTotal(bids, bidder) >= 0 && (ClaimTotal(bids, bidder) == 0 <==> Claims(bids, bidder) == 0)
  {
    if bids != [] {
      ClaimBounds(bids[1..], bidder);
    }
  }

  lemma {:induction false} FirstClaim(bids: seq<Bid>, bidder: nat)
    requires forall i :: 0 <= i < |bids| ==> bids[i].amount > 0
    requires FindBid(bids, bidder).Some?
    ensures ClaimTotal(bids, bidder) >= FindBid(bids, bidder).value.amount
    ensures ClaimTotal(bids, bidder) == FindBid(bids, bidder).value.amount <==> Claims(bids, bidder) == 1
  {
    if bids[0].bidder == bidder {
      ClaimBounds(bids[1..], bidder);
    } else {
      FirstClaim(bids[1..], bidder);
    }
  }

  lemma UsdOfOutputs(s: State, winner: Bid)
    ensures UsdTotal(Outputs(s, winner)) == winner.amount + BidTotal(Losers(s.bids, winner.bidder))
  {
    var rest := Recoveries(Losers(s.bids, winner.bidder));
    RecoveriesPay(Losers(s.bids, winner.bidder));
    var o := Outputs(s, winner);
    assert o[1..][1..] == rest;
    assert UsdTotal(o[1..]) == winner.amount + UsdTotal(o[1..][1..]);
  }

  /** What the engine pays out equals what was bid exactly when no second bid shares the winner's id; a
      second one is neither paid out nor returned. */
  lemma PayoutExact(s: State)
    requires SettleStep(s) != s
    requires forall i :: 0 <= i < |s.bids| ==> s.bids[i].amount > 0 && s.bids[i].status == Active
    ensures var winner := FindBid(s.bids, s.winner.value.bidder).value;
            && |SettleStep(s).notes| >= |s.notes| && SettleStep(s).notes[|s.notes|..] == Outputs(s, winner)
            && (UsdTotal(Outputs(s, winner)) == BidTotal(s.bids) <==> Claims(s.bids, winner.bidder) == 1)
  {
    var winner := FindBid(s.bids, s.winner.value.bidder).value;
    UsdOfOutputs(s, winner);
    LosersTotal(s.bids, winner.bidder);
    FirstClaim(s.bids, winner.bidder);
  }

  ghost predicate Maximal(s: State) {
    s.winner.Some? && forall i :: 0 <= i < |s.bids| ==> s.bids[i].amount <= s.winner.value.amount
  }

  function Dollars(n: int): JsNumber {
    Finite(n as real)
  }

  lemma WholeDollars(n: int)
    requires 1 <= n <= MAX_AMOUNT
    ensures PositiveAmount(Dollars(n)) == Some(n)
  {
  }

  lemma Extend(actions: seq<Action>, a: Action)
    ensures EngineRun(actions + [a]) == Next(EngineRun(actions), a)
  {
    assert (actions + [a])[..|actions|] == actions;
  }

  /** A listed auction with two funding notes of 600 and 400 USD. */
  lemma FundedAuction() returns (actions: seq<Action>)
    ensures EngineRun(actions)
         == State(true, true, true, 1, 0, true, Some(0), 0, 1000, [], false, Bidding, None, false, None,
                  [Note(SELLER, ClassA, 1, AuctionAsset, Locked), Note(VISITOR, Usd, 600, Funding, Unspent),
                   Note(VISITOR, Usd, 400, Funding, Unspent)])
  {
    WholeDollars(1);
    WholeDollars(1000);
    WholeDollars(600);
    WholeDollars(400);
    actions := [];
    var steps := [GenerateKey, RegisterAuctioneer, MintNft(Dollars(1)), ListAsset, MintCash(Dollars(1000)),
                  ShieldCash(Dollars(600)), ShieldCash(Dollars(400))];
    Extend([], steps[0]);
    Extend([] + [steps[0]], steps[1]);
    var two := [] + [steps[0]] + [steps[1]];
    Extend(two, steps[2]);
    Extend(two + [steps[2]], steps[3]);
    var four := two + [steps[2]] + [steps[3]];
    Extend(four, steps[4]);
    Extend(four + [steps[4]], steps[5]);
    Extend(four + [steps[4]] + [steps[5]], steps[6]);
    actions := four + [steps[4]] + [steps[5]] + [steps[6]];
  }

  const TWO_BIDS := [Bid(VISITOR, 300, Some(1), Active), Bid(VISITOR, 200, Some(2), Active)]

  /** Two bids by the visitor, bidding closed on them, the first one announced. */
  lemma DoubleBid() returns (actions: seq<Action>)
    ensures var s := EngineRun(actions);
            && s.bids == TWO_BIDS && s.winner == Some(Winner(VISITOR, 300)) && s.settlement.None?
            && !s.otherBidsCollected && |s.notes| == 5
  {
    WholeDollars(300);
    WholeDollars(200);
    var a := FundedAuction();
    Extend(a, SubmitBid(1, Dollars(300)));
    var b := a + [SubmitBid(1, Dollars(300))];
    Extend(b, SubmitBid(2, Dollars(200)));
    var c := b + [SubmitBid(2, Dollars(200))];
    Extend(c, CloseBidding);
    var d := c + [CloseBidding];
    Extend(d, ProveWinner);
    actions := d + [ProveWinner];
    assert BestFrom(TWO_BIDS, None) == Some(TWO_BIDS[0]) by {
      assert TWO_BIDS[1..] == [TWO_BIDS[1]] && TWO_BIDS[1..][1..] == [];
    }
  }

  /** Without the walkthrough's guards the engine lets the visitor bid twice and collects bids after the
      announcement: it then settles below the highest bid, and pays out less than was bid. */
  lemma EngineAloneFails() returns (actions: seq<Action>)
    ensures var s := EngineRun(actions);
            && SettleStep(s) != s && !Maximal(s)
            && UsdTotal(SettleStep(s).notes[|s.notes|..]) < BidTotal(s.bids)
  {
    var before := DoubleBid();
    var s0 := EngineRun(before);
    Extend(before, CollectBids);
    actions := before + [CollectBids];
    var s := EngineRun(actions);
    assert s.bids == TWO_BIDS + OTHER_BIDS;
    assert s.bids[4].amount == 610;
    assert s.bids[0] == TWO_BIDS[0];
    assert FindBid(s.bids, VISITOR) == Some(TWO_BIDS[0]);
    assert Claims(s.bids, VISITOR) >= 2 by {
      assert s.bids[1..][0] == TWO_BIDS[1];
    }
    PayoutExact(s);
    UsdOfOutputs(s, TWO_BIDS[0]);
    LosersTotal(s.bids, VISITOR);
    FirstClaim(s.bids, VISITOR);
  }
}
