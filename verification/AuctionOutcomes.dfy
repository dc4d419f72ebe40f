/** What one bid does to a note, and what a whole walkthrough of the auction leaves with everybody. */
module AuctionOutcomes {
  import opened Wrappers
  import opened Amounts
  import opened Auction
  import opened AuctionSafety
  import opened AuctionRuns

  // ---------- one bid ----------

  /** In every state a bid is accepted exactly while bidding is open, on an unspent funding note of the visitor that
      covers the rounded amount. It spends that note alone; bid and change add up to the note's amount, and a change of
      zero makes no note. */
  lemma SubmitExact(s: State, note: nat, v: JsNumber)
    ensures var s' := Next(s, SubmitBid(note, v));
            if s.status == Bidding && note < |s.notes| && s.notes[note].owner == VISITOR
               && s.notes[note].origin == Funding && s.notes[note].status == Unspent
               && v.Finite? && v.r >= 0.5 && PositiveAmount(v).value <= s.notes[note].amount then
              var held, bid, at := s.notes[note].amount, PositiveAmount(v).value, |s.notes|;
              && s'.bids == s.bids + [Bid(VISITOR, bid, Some(note), Active)]
              && s'.privateCash == s.privateCash - bid
              && |s'.notes| == at + (if bid < held then 1 else 0)
              && s'.notes[..at] == s.notes[note := s.notes[note].(status := Spent)]
              && (bid < held ==> s'.notes[at] == Note(VISITOR, Usd, s'.notes[at].amount, Change, Unspent)
                                 && s'.notes[at].amount + bid == held)
              && s' == s.(bids := s'.bids, privateCash := s'.privateCash, notes := s'.notes)
            else s' == s
  {
    hide SettleStep, BestFrom, FindBid;
  }

  // ---------- the order of the stages ----------

  /** Each stage presupposes the ones before it. */
  predicate InOrder(s: State) {
    && (s.registered ==> s.keyGenerated) && (s.nftMinted ==> s.registered && s.assetQuantity > 0)
    && (s.listed ==> s.nftMinted) && (s.nftNote.Some? <==> s.listed) && (s.status != Draft ==> s.listed)
    && s.publicCash >= 0 && (s.publicCash > 0 || s.bids != [] ==> s.listed)
    && (s.otherBidsCollected ==> s.bids != []) && (s.status == Closed || s.winner.Some? ==> |s.bids| >= 2)
    && (s.challengeOpen || s.settlement.Some? ==> s.winner.Some?)
  }

  lemma OrderNext(s: State, a: Action)
    requires InOrder(s)
    ensures InOrder(Next(s, a))
  {
    hide SettleStep, BestFrom, PositiveAmount;
    match a
    case MintNft(v) => Rounded(v);
    case MintCash(v) => Rounded(v);
    case Settle => SettledOrder(s);
    case _ =>
  }

  lemma SettledOrder(s: State)
    requires InOrder(s)
    ensures InOrder(SettleStep(s))
  {
    if SettleStep(s) != s {
      DecidedAt(s.bids, FindBid(s.bids, s.winner.value.bidder).value.bidder);
    }
  }

  /** Even without the walkthrough's guards the engine keeps this order in every run. */
  lemma {:induction false} StagesInOrder(actions: seq<Action>)
    ensures InOrder(EngineRun(actions))
    decreases |actions|
  {
    hide Next, InOrder;
    if actions == [] {
      assert InOrder(EngineRun([])) by { NothingDone(); }
    } else {
      StagesInOrder(actions[..|actions| - 1]);
      OrderNext(EngineRun(actions[..|actions| - 1]), actions[|actions| - 1]);
    }
  }

  lemma NothingDone()
    ensures InOrder(EngineRun([]))
  {
  }

  // ---------- the walkthrough ----------

  lemma UiExtend(actions: seq<Action>, a: Action)
    ensures UiRun(actions + [a]) == if UiEnabled(UiRun(actions), a) then Next(UiRun(actions), a) else UiRun(actions)
  {
    assert (actions + [a])[..|actions|] == actions;
  }

  lemma EmptyRun()
    ensures UiRun([]) == INITIAL
  {
  }

  function Listing(quantity: JsNumber): seq<Action> {
    [GenerateKey, RegisterAuctioneer, MintNft(quantity), ListAsset]
  }

  /** The amounts of a walkthrough: shares, minted cash, shielded cash and the visitor's bid. */
  datatype Plan = Plan(quantity: JsNumber, cash: JsNumber, shielded: JsNumber, bid: JsNumber)

  predicate GoodPlan(p: Plan) {
    && PositiveAmount(p.quantity).Some? && PositiveAmount(p.cash).Some? && PositiveAmount(p.shielded).Some?
    && PositiveAmount(p.bid).Some?
    && PositiveAmount(p.bid).value <= PositiveAmount(p.shielded).value <= PositiveAmount(p.cash).value
  }

  function BidSteps(p: Plan): seq<Action> {
    [MintCash(p.cash), ShieldCash(p.shielded), SubmitBid(1, p.bid)]
  }

  function Decision(): seq<Action> {
    [CollectBids, CloseBidding, ProveWinner, Settle]
  }

  lemma Listed(quantity: JsNumber)
    requires PositiveAmount(quantity).Some?
    ensures var q := PositiveAmount(quantity).value;
            UiRun(Listing(quantity))
            == State(true, true, true, q, 0, true, Some(0), 0, 0, [], false, Bidding, None, false, None,
                     [Note(SELLER, ClassA, q, AuctionAsset, Locked)])
  {
    hide PositiveAmount, UiRun, SettleStep, BestFrom, SubmitStep;
    var a, b, c, d := GenerateKey, RegisterAuctioneer, MintNft(quantity), ListAsset;
    EmptyRun();
    UiExtend([], a);
    UiExtend([a], b);
    UiExtend([a, b], c);
    UiExtend([a, b, c], d);
    assert [] + [a] == [a] && [a] + [b] == [a, b] && [a, b] + [c] == [a, b, c] && [a, b, c] + [d] == [a, b, c, d];
  }

  /** What is left of the funding note after the bid. */
  function ChangeNotes(held: int, bid: int): seq<Note> {
    if bid < held then [Note(VISITOR, Usd, held - bid, Change, Unspent)] else []
  }

  /** The state once the visitor has bid. */
  function AfterBid(q: int, m: int, f: int, b: int): State {
    State(true, true, true, q, 0, true, Some(0), m - f, f - b, [Bid(VISITOR, b, Some(1), Active)], false, Bidding, None,
          false, None,
          [Note(SELLER, ClassA, q, AuctionAsset, Locked), Note(VISITOR, Usd, f, Funding, Spent)] + ChangeNotes(f, b))
  }

  lemma Bids(p: Plan)
    requires GoodPlan(p)
    ensures UiRun(Listing(p.quantity) + BidSteps(p))
         == AfterBid(PositiveAmount(p.quantity).value, PositiveAmount(p.cash).value, PositiveAmount(p.shielded).value,
                     PositiveAmount(p.bid).value)
  {
    hide PositiveAmount, UiRun, Listing, SettleStep, BestFrom;
    var l, t := Listing(p.quantity), BidSteps(p);
    Listed(p.quantity);
    UiExtend(l, t[0]);
    UiExtend(l + [t[0]], t[1]);
    UiExtend(l + [t[0]] + [t[1]], t[2]);
    assert l + t == l + [t[0]] + [t[1]] + [t[2]];
    var q, m, f, b := PositiveAmount(p.quantity).value, PositiveAmount(p.cash).value, PositiveAmount(p.shielded).value,
                      PositiveAmount(p.bid).value;
    var s2 := UiRun(l + [t[0]] + [t[1]]);
    assert s2.notes == [Note(SELLER, ClassA, q, AuctionAsset, Locked), Note(VISITOR, Usd, f, Funding, Unspent)];
  }

  /** The five bids, and the one that wins: the visitor's from 610 on, otherwise party 4's. */
  function FiveBids(b: int): seq<Bid> {
    [Bid(VISITOR, b, Some(1), Active), Bid(1, 420, None, Active), Bid(3, 575, None, Active), Bid(4, 610, None, Active),
     Bid(5, 540, None, Active)]
  }

  lemma Best(b: int)
    requires b > 0
    ensures BestFrom(FiveBids(b), None) == Some(if b >= 610 then FiveBids(b)[0] else FiveBids(b)[3])
  {
    var bids := FiveBids(b);
    var r := BestFrom(bids, None);
    assert BestFrom(bids[1..], Some(bids[0])) == r;
    var c := if 420 > b then bids[1] else bids[0];
    assert bids[1..][1..] == bids[2..] && bids[2..][1..] == bids[3..] && bids[3..][1..] == bids[4..];
    assert bids[4..][1..] == [];
    assert BestFrom(bids[2..], Some(c)) == r;
    var d := if 575 > c.amount then bids[2] else c;
    assert BestFrom(bids[3..], Some(d)) == r;
    var e := if 610 > d.amount then bids[3] else d;
    assert BestFrom(bids[4..], Some(e)) == r;
    assert bids[4..] == [bids[4]] && BestFrom([], Some(e)) == Some(e);
    assert e == if b >= 610 then bids[0] else bids[3];
    assert BestFrom([bids[4]], Some(e)) == Some(e);
  }

  lemma Decides(s: State, b: int, q: int, m: int, f: int)
    requires s == AfterBid(q, m, f, b) && b > 0
    ensures var s1 := Next(s, CollectBids);
            var s2 := Next(s1, CloseBidding);
            var s3 := Next(s2, ProveWinner);
            && UiEnabled(s, CollectBids) && UiEnabled(s1, CloseBidding) && UiEnabled(s2, ProveWinner)
            && UiEnabled(s3, Settle)
            && s3 == s.(bids := FiveBids(b), otherBidsCollected := true, status := Status.Announced,
                        winner := Some(if b >= 610 then Winner(VISITOR, b) else Winner(4, 610)))
  {
    hide BestFrom, SettleStep, SubmitStep;
    Best(b);
    assert FindBid(s.bids, VISITOR).Some?;
    assert s.bids + OTHER_BIDS == FiveBids(b);
  }

  /** What settlement adds: the certificate to the winner, the winning amount to the seller, and every other bid back to
      its bidder. */
  function Paid(q: int, b: int): seq<Note> {
    if b >= 610 then
      [Note(VISITOR, ClassA, q, Output, Unspent), Note(SELLER, Usd, b, Output, Unspent),
       Note(1, Usd, 420, Recovery, Unspent), Note(3, Usd, 575, Recovery, Unspent), Note(4, Usd, 610, Recovery, Unspent),
       Note(5, Usd, 540, Recovery, Unspent)]
    else
      [Note(4, ClassA, q, Output, Unspent), Note(SELLER, Usd, 610, Output, Unspent),
       Note(VISITOR, Usd, b, Recovery, Unspent), Note(1, Usd, 420, Recovery, Unspent),
       Note(3, Usd, 575, Recovery, Unspent), Note(5, Usd, 540, Recovery, Unspent)]
  }

  lemma PaysPlan(s: State, q: int, m: int, f: int, b: int)
    requires 0 < b <= f
    requires s == AfterBid(q, m, f, b).(bids := FiveBids(b), otherBidsCollected := true, status := Status.Announced,
                                        winner := Some(if b >= 610 then Winner(VISITOR, b) else Winner(4, 610)))
    ensures var s' := SettleStep(s);
            && s'.status == Settled && s'.settlement == s.winner
            && s'.privateCash == f - b + (if b >= 610 then 0 else b)
            && s'.notes == [Note(SELLER, ClassA, q, AuctionAsset, Spent), Note(VISITOR, Usd, f, Funding, Spent)]
                           + ChangeNotes(f, b) + Paid(q, b)
  {
    hide Claims, BestFrom, Decided, Outputs, Paid, SpendInputs, SpendAt, FindBid;
    var bids := FiveBids(b);
    var n := if b >= 610 then 0 else 3;
    assert bids[1..] == OTHER_BIDS;
    UniqueBid(bids, n);
    UniqueBid(bids, 0);
    PaidByPlan(s, q, b, n);
    SpentByPlan(s.notes, bids, q, f, b);
  }

  lemma PaidByPlan(s: State, q: int, b: int, n: nat)
    requires s.bids == FiveBids(b) && s.assetQuantity == q && n == if b >= 610 then 0 else 3
    ensures Outputs(s, s.bids[n]) == Paid(q, b)
  {
    hide Recoveries, Losers;
    var bids := FiveBids(b);
    LosersAre(bids, n);
    var others := bids[..n] + bids[n + 1..];
    RecoveriesPay(others);
    assert others == if n == 0 then [bids[1], bids[2], bids[3], bids[4]] else [bids[0], bids[1], bids[2], bids[4]];
  }

  lemma SpentByPlan(notes: seq<Note>, bids: seq<Bid>, q: int, f: int, b: int)
    requires bids == FiveBids(b)
    requires notes == [Note(SELLER, ClassA, q, AuctionAsset, Locked), Note(VISITOR, Usd, f, Funding, Spent)]
                      + ChangeNotes(f, b)
    ensures SpendInputs(SpendAt(notes, Some(0)), bids)
         == [Note(SELLER, ClassA, q, AuctionAsset, Spent), Note(VISITOR, Usd, f, Funding, Spent)] + ChangeNotes(f, b)
  {
    var spent := SpendAt(notes, Some(0));
    assert SpendAt(spent, Some(1)) == spent;
    NothingSpent(spent, bids[1..]);
  }

  lemma {:induction false} NothingSpent(notes: seq<Note>, bids: seq<Bid>)
    requires forall i :: 0 <= i < |bids| ==> bids[i].inputNote.None?
    ensures SpendInputs(notes, bids) == notes
  {
    if bids != [] {
      NothingSpent(notes, bids[1..]);
    }
  }

  /** The walkthrough, for any plan: bidding from 610 on wins the certificate and pays the bid to the seller; below that
      party 4 wins for 610 and the visitor gets its bid back, so it holds all that it shielded. */
  lemma {:induction false} WalkthroughSettles(p: Plan)
    requires GoodPlan(p)
    ensures var s := UiRun(Listing(p.quantity) + BidSteps(p) + Decision());
            var q, f, b := PositiveAmount(p.quantity).value, PositiveAmount(p.shielded).value,
                           PositiveAmount(p.bid).value;
            && s.status == Settled && s.settlement == Some(if b >= 610 then Winner(VISITOR, b) else Winner(4, 610))
            && s.privateCash == (if b >= 610 then f - b else f)
            && s.publicCash == PositiveAmount(p.cash).value - f
            && s.notes == [Note(SELLER, ClassA, q, AuctionAsset, Spent), Note(VISITOR, Usd, f, Funding, Spent)]
                          + ChangeNotes(f, b) + Paid(q, b)
  {
    hide PositiveAmount, UiRun, Listing, BidSteps, Next, UiEnabled, SettleStep;
    var l, t := Listing(p.quantity) + BidSteps(p), Decision();
    var q, m, f, b := PositiveAmount(p.quantity).value, PositiveAmount(p.cash).value, PositiveAmount(p.shielded).value,
                      PositiveAmount(p.bid).value;
    Bids(p);
    Rounded(p.bid);
    Decides(UiRun(l), b, q, m, f);
    UiExtend(l, t[0]);
    UiExtend(l + [t[0]], t[1]);
    UiExtend(l + [t[0]] + [t[1]], t[2]);
    UiExtend(l + [t[0]] + [t[1]] + [t[2]], t[3]);
    assert l + t == l + [t[0]] + [t[1]] + [t[2]] + [t[3]];
    var s3 := UiRun(l + [t[0]] + [t[1]] + [t[2]]);
    PaysPlan(s3, q, m, f, b);
    Settling(s3);
  }

  lemma Rounded(v: JsNumber)
    ensures PositiveAmount(v).Some? ==> PositiveAmount(v).value > 0
  {
  }

  lemma Settling(s: State)
    ensures Next(s, Settle) == SettleStep(s)
    ensures SettleStep(s).publicCash == s.publicCash
  {
  }
}
