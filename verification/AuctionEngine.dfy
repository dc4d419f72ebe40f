/** The auction cases of the engine that loop or touch many fields, as updates in place. */
module AuctionEngine {
  import opened Wrappers
  import opened Amounts
  import opened Auction
  import opened AuctionSafety

  class Engine {
    var keyGenerated: bool
    var registered: bool
    var nftMinted: bool
    var assetQuantity: int
    var sellerPublicNft: int
    var listed: bool
    var nftNote: Option<nat>
    var publicCash: int
    var privateCash: int
    var bids: seq<Bid>
    var otherBidsCollected: bool
    var status: Status
    var winner: Option<Winner>
    var challengeOpen: bool
    var settlement: Option<Winner>
    var notes: seq<Note>

    ghost function View(): State
      reads this
    {
      State(keyGenerated, registered, nftMinted, assetQuantity, sellerPublicNft, listed, nftNote, publicCash,
            privateCash, bids, otherBidsCollected, status, winner, challengeOpen, settlement, notes)
    }

    constructor ()
      ensures View() == INITIAL
    {
      keyGenerated, registered, nftMinted, assetQuantity, sellerPublicNft := false, false, false, 0, 0;
      listed, nftNote, publicCash, privateCash, bids := false, None, 0, 0, [];
      otherBidsCollected, status, winner, challengeOpen, settlement, notes := false, Draft, None, false, None, [];
    }

    method GenerateKey()
      modifies this
      ensures View() == Next(old(View()), Action.GenerateKey)
    {
      keyGenerated := true;
    }

    method RegisterAuctioneer()
      modifies this
      ensures View() == Next(old(View()), Action.RegisterAuctioneer)
    {
      if keyGenerated { registered := true; }
    }

    method MintNft(v: JsNumber)
      modifies this
      ensures View() == Next(old(View()), Action.MintNft(v))
    {
      var quantity := PositiveAmount(v);
      if !registered || quantity.None? { return; }
      nftMinted, assetQuantity, sellerPublicNft := true, quantity.value, quantity.value;
    }

    method ListAsset()
      modifies this
      ensures View() == Next(old(View()), Action.ListAsset)
    {
      if !nftMinted || sellerPublicNft != assetQuantity { return; }
      sellerPublicNft, listed, status := 0, true, Bidding;
      nftNote := Some(|notes|);
      notes := notes + [Note(SELLER, ClassA, assetQuantity, AuctionAsset, Locked)];
    }

    method MintCash(v: JsNumber)
      modifies this
      ensures View() == Next(old(View()), Action.MintCash(v))
    {
      var amount := PositiveAmount(v);
      if listed && amount.Some? { publicCash := publicCash + amount.value; }
    }

    method ShieldCash(v: JsNumber)
      modifies this
      ensures View() == Next(old(View()), Action.ShieldCash(v))
    {
      var amount := PositiveAmount(v);
      if amount.None? || amount.value > publicCash { return; }
      publicCash, privateCash := publicCash - amount.value, privateCash + amount.value;
      notes := notes + [Note(VISITOR, Usd, amount.value, Funding, Unspent)];
    }

    method Challenge()
      modifies this
      ensures View() == Next(old(View()), Action.Challenge)
    {
      if winner.Some? && settlement.None? { challengeOpen := true; }
    }

    method SubmitBid(note: nat, v: JsNumber)
      modifies this
      ensures View() == Next(old(View()), Action.SubmitBid(note, v))
    {
      if status != Bidding || note >= |notes| { return; }
      var input := notes[note];
      if input.owner != VISITOR || input.origin != Funding || input.status != Unspent { return; }
      var amount := PositiveAmount(v);
      if amount.None? || amount.value > input.amount { return; }
      var change := input.amount - amount.value;
      notes := notes[note := input.(status := Spent)];
      privateCash := privateCash - amount.value;
      if change > 0 {
        notes := notes + [Note(VISITOR, Usd, change, Change, Unspent)];
      }
      bids := bids + [Bid(VISITOR, amount.value, Some(note), Active)];
    }

    /** The four other bidders, one push each. */
    method CollectBids()
      modifies this
      ensures View() == Next(old(View()), Action.CollectBids)
    {
      if FindBid(bids, VISITOR).None? || otherBidsCollected { return; }
      var bidders := [(1, 420), (3, 575), (4, 610), (5, 540)];
      for i := 0 to |bidders|
        invariant bids == old(bids) + OTHER_BIDS[..i]
        invariant View() == old(View()).(bids := bids)
      {
        bids := bids + [Bid(bidders[i].0, bidders[i].1, None, Active)];
      }
      otherBidsCollected := true;
    }

    method CloseBidding()
      modifies this
      ensures View() == Next(old(View()), Action.CloseBidding)
    {
      if |bids| >= 2 { status := Closed; }
    }

    /** The reduction over the active bids: the first largest one wins. */
    method FindWinner() returns (best: Option<Bid>)
      ensures best == BestFrom(bids, None)
      ensures best.Some? ==> best.value in bids && best.value.status == Active
      ensures forall i :: 0 <= i < |bids| && bids[i].status == Active ==>
                best.Some? && bids[i].amount <= best.value.amount
    {
      BestIsMaximal(bids, None);
      best := None;
      for i := 0 to |bids|
        invariant BestFrom(bids[i..], best) == BestFrom(bids, None)
      {
        assert bids[i..][0] == bids[i] && bids[i..][1..] == bids[i + 1..];
        if bids[i].status == Active && (best.None? || bids[i].amount > best.value.amount) {
          best := Some(bids[i]);
        }
      }
    }

    method ProveWinner()
      modifies this
      ensures View() == Next(old(View()), Action.ProveWinner)
    {
      if status != Closed { return; }
      var best := FindWinner();
      if best.None? { return; }
      winner := Some(Winner(best.value.bidder, best.value.amount));
      status := Announced;
    }

    method CollectLosers(winnerId: nat) returns (losers: seq<Bid>)
      ensures losers == Losers(bids, winnerId)
    {
      losers := [];
      for i := 0 to |bids|
        invariant losers + Losers(bids[i..], winnerId) == Losers(bids, winnerId)
      {
        ghost var rest := bids[i..];
        assert rest[0] == bids[i] && rest[1..] == bids[i + 1..];
        if bids[i].bidder != winnerId && bids[i].status == Active {
          losers := losers + [bids[i]];
        }
      }
    }

    method RecoverLosers(losers: seq<Bid>) returns (recoveries: seq<Note>)
      ensures recoveries == Recoveries(losers)
    {
      RecoveriesPay(losers);
      recoveries := [];
      for i := 0 to |losers|
        invariant |recoveries| == i && forall j :: 0 <= j < i ==> recoveries[j] == Recoveries(losers)[j]
      {
        recoveries := recoveries + [Note(losers[i].bidder, Usd, losers[i].amount, Recovery, Unspent)];
      }
    }

    /** The loop that decides every bid and spends its input note. */
    method DecideBids(winnerId: nat)
      modifies this`bids, this`notes
      ensures bids == Decided(old(bids), winnerId) && notes == SpendInputs(old(notes), old(bids))
    {
      hide SpendAt, Decided;
      DecidedAt(bids, winnerId);
      for i := 0 to |bids|
        invariant |bids| == |old(bids)|
        invariant forall j :: 0 <= j < |bids| ==>
                    bids[j] == if j < i then Decided(old(bids), winnerId)[j] else old(bids)[j]
        invariant SpendInputs(notes, old(bids)[i..]) == SpendInputs(old(notes), old(bids))
      {
        ghost var rest := old(bids)[i..];
        assert rest[0] == bids[i] && rest[1..] == old(bids)[i + 1..];
        notes := SpendAt(notes, bids[i].inputNote);
        bids := bids[i := bids[i].(status := if bids[i].bidder == winnerId then Won else Recovered)];
      }
    }

    method Settle()
      modifies this
      ensures View() == Next(old(View()), Action.Settle)
    {
      hide SpendInputs, SpendAt, Decided, Losers, Recoveries, FindBid, BestFrom;
      if winner.None? || settlement.Some? { return; }
      var won := FindBid(bids, winner.value.bidder);
      if won.None? { return; }
      PayOut(won.value);
      CloseSettlement();
    }

    /** Create the outputs, spend the escrowed inputs and credit a visitor who lost. */
    method PayOut(won: Bid)
      modifies this`notes, this`bids, this`privateCash
      ensures notes == SpendInputs(SpendAt(old(notes), nftNote), old(bids)) + Outputs(old(View()), won)
      ensures bids == Decided(old(bids), won.bidder)
      ensures var visitor := FindBid(old(bids), VISITOR);
              privateCash == old(privateCash) + if won.bidder != VISITOR && visitor.Some?
                  then visitor.value.amount else 0
    {
      hide SpendInputs, SpendAt, Decided, Losers, Recoveries, FindBid, BestFrom;
      var visitor := FindBid(bids, VISITOR);
      var losers := CollectLosers(won.bidder);
      var recoveries := RecoverLosers(losers);
      notes := SpendAt(notes, nftNote);
      DecideBids(won.bidder);
      notes := notes + ([Note(won.bidder, ClassA, assetQuantity, Output, Unspent),
                         Note(SELLER, Usd, won.amount, Output, Unspent)]
                        + recoveries);
      if won.bidder != VISITOR && visitor.Some? {
        privateCash := privateCash + visitor.value.amount;
      }
    }

    method CloseSettlement()
      modifies this`challengeOpen, this`status, this`settlement
      ensures !challengeOpen && status == Settled && settlement == winner
    {
      challengeOpen, status, settlement := false, Settled, winner;
    }
  }
}
