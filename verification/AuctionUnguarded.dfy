/** What the auction engine keeps on its own, in every run and without the walkthrough's button guards. */
module AuctionUnguarded {
  import opened Wrappers
  import opened Amounts
  import opened Auction
  import opened AuctionSafety

  // ---------- before settlement ----------

  /** Until settlement every bid is positive and active, and the announced winner made an announced-size bid. */
  ghost predicate Pending(s: State) {
    s.settlement.None? ==>
      && (forall i :: 0 <= i < |s.bids| ==> s.bids[i].amount > 0 && s.bids[i].status == Active)
      && (s.winner.Some? ==> Announced(s.bids, s.winner.value))
  }

  ghost predicate Announced(bids: seq<Bid>, w: Winner) {
    exists i :: 0 <= i < |bids| && Winner(bids[i].bidder, bids[i].amount) == w
  }

  lemma AnnouncedGrows(bids: seq<Bid>, more: seq<Bid>, w: Winner)
    requires Announced(bids, w)
    ensures Announced(bids + more, w)
  {
    var i :| 0 <= i < |bids| && Winner(bids[i].bidder, bids[i].amount) == w;
    assert (bids + more)[i] == bids[i];
  }

  /** Bids are only appended, and nothing else about the announcement changes. */
  lemma BidsGrow(s: State, s': State, more: seq<Bid>)
    requires Pending(s) && s.settlement.None?
    requires s'.bids == s.bids + more && s'.winner == s.winner && s'.settlement == s.settlement
    requires forall i :: 0 <= i < |more| ==> more[i].amount > 0 && more[i].status == Active
    ensures Pending(s')
  {
    if s.winner.Some? {
      AnnouncedGrows(s.bids, more, s.winner.value);
    }
  }

  lemma AnnouncePending(s: State)
    requires Pending(s) && s.settlement.None?
    ensures Pending(Next(s, ProveWinner))
  {
    hide BestFrom;
    BestIsMaximal(s.bids, None);
    var best := BestFrom(s.bids, None);
    if s.status == Closed && best.Some? {
      var i :| 0 <= i < |s.bids| && s.bids[i] == best.value;
      assert Announced(s.bids, Next(s, ProveWinner).winner.value);
    }
  }

  lemma SubmitPending(s: State, note: nat, v: JsNumber)
    requires Pending(s) && s.settlement.None?
    ensures Pending(SubmitStep(s, note, v))
  {
    if CanBid(s, note, v) {
      BidsGrow(s, SubmitStep(s, note, v), [Bid(VISITOR, PositiveAmount(v).value, Some(note), Active)]);
    }
  }

  lemma CollectPending(s: State)
    requires Pending(s) && s.settlement.None?
    ensures Pending(Next(s, CollectBids))
  {
    hide FindBid;
    if Next(s, CollectBids) != s {
      BidsGrow(s, Next(s, CollectBids), OTHER_BIDS);
    }
  }

  lemma PendingNext(s: State, a: Action)
    requires Pending(s)
    ensures Pending(Next(s, a))
  {
    hide BestFrom, SettleStep, FindBid, Announced;
    if s.settlement.None? {
      match a
      case SubmitBid(note, v) => SubmitPending(s, note, v);
      case CollectBids => CollectPending(s);
      case ProveWinner => AnnouncePending(s);
      case Settle => SettlementCloses(s);
      case _ =>
    } else {
      SettlementStays(s, a);
    }
  }

  /** A settlement that changes anything ends the pending phase. */
  lemma SettlementCloses(s: State)
    ensures SettleStep(s) != s ==> SettleStep(s).settlement == s.winner && s.winner.Some? && s.settlement.None?
  {
  }

  lemma SettlementStays(s: State, a: Action)
    ensures s.settlement.Some? ==> Next(s, a).settlement == s.settlement
  {
  }

  lemma {:induction false} RunPending(actions: seq<Action>)
    ensures Pending(EngineRun(actions))
    decreases |actions|
  {
    if actions != [] {
      RunPending(actions[..|actions| - 1]);
      PendingNext(EngineRun(actions[..|actions| - 1]), actions[|actions| - 1]);
    }
  }

  // ---------- which steps keep the announced bid maximal ----------

  predicate Announces(s: State, a: Action) {
    a.ProveWinner? && s.status == Closed && BestFrom(s.bids, None).Some?
  }

  /** No collection above the announced amount, and no bid above it. */
  predicate Harmless(s: State, a: Action) {
    s.winner.Some? ==>
      match a
      case CollectBids => FindBid(s.bids, VISITOR).None? || s.otherBidsCollected || s.winner.value.amount >= 610
      case SubmitBid(note, v) => !CanBid(s, note, v) || PositiveAmount(v).value <= s.winner.value.amount
      case _ => true
  }

  /** Before settlement: an announcement makes the announced bid a maximum of all bids, and every other step
      keeps it one exactly when it is harmless. */
  lemma StepKeepsMaximal(s: State, a: Action)
    requires Pending(s) && s.settlement.None?
    ensures Announces(s, a) ==> Maximal(Next(s, a))
    ensures !Announces(s, a) ==> (Maximal(Next(s, a)) <==> Maximal(s) && Harmless(s, a))
  {
    hide BestFrom, SettleStep, FindBid;
    match a
    case SubmitBid(note, v) => SubmitKeepsMaximal(s, note, v);
    case CollectBids => CollectKeepsMaximal(s);
    case ProveWinner => AnnounceMaximal(s);
    case Settle => SettleKeepsMaximal(s);
    case _ =>
  }

  lemma AnnounceMaximal(s: State)
    requires Pending(s) && s.settlement.None?
    ensures Announces(s, ProveWinner) ==> Maximal(Next(s, ProveWinner))
    ensures !Announces(s, ProveWinner) ==> Next(s, ProveWinner) == s
  {
    hide BestFrom;
    BestIsMaximal(s.bids, None);
  }

  lemma SubmitKeepsMaximal(s: State, note: nat, v: JsNumber)
    ensures Maximal(SubmitStep(s, note, v)) <==> Maximal(s) && Harmless(s, SubmitBid(note, v))
  {
    if CanBid(s, note, v) && s.winner.Some? {
      var bids := SubmitStep(s, note, v).bids;
      assert bids[|s.bids|].amount == PositiveAmount(v).value;
      assert forall i :: 0 <= i < |s.bids| ==> bids[i] == s.bids[i];
    }
  }

  lemma CollectKeepsMaximal(s: State)
    ensures Maximal(Next(s, CollectBids)) <==> Maximal(s) && Harmless(s, CollectBids)
  {
    hide FindBid;
    if s.winner.Some? && Next(s, CollectBids) != s {
      var late := Next(s, CollectBids).bids;
      assert forall i :: 0 <= i < |s.bids| ==> late[i] == s.bids[i];
      assert late[|s.bids| + 2] == OTHER_BIDS[2];
      assert forall i :: |s.bids| <= i < |late| ==> late[i] == OTHER_BIDS[i - |s.bids|];
    }
  }

  lemma SettleKeepsMaximal(s: State)
    ensures Maximal(SettleStep(s)) <==> Maximal(s)
  {
    hide FindBid, SpendInputs, Outputs;
    if SettleStep(s) != s {
      DecidedAt(s.bids, FindBid(s.bids, s.winner.value.bidder).value.bidder);
    }
  }

  // ---------- over runs ----------

  /** Somewhere in the run a winner was announced, and every step since its last announcement was harmless. */
  predicate Covered(actions: seq<Action>)
    decreases |actions|
  {
    actions != []
    && var before, a := actions[..|actions| - 1], actions[|actions| - 1];
       Announces(EngineRun(before), a) || (Covered(before) && Harmless(EngineRun(before), a))
  }

  /** In every unsettled run of the engine the announced bid is a maximum of all bids exactly when every
      collection and every bid since its announcement was harmless. */
  lemma {:induction false} MaximalIff(actions: seq<Action>)
    requires EngineRun(actions).settlement.None?
    ensures Maximal(EngineRun(actions)) <==> Covered(actions)
    decreases |actions|
  {
    hide Harmless, Announces, Next, BestFrom;
    if actions == [] {
      assert EngineRun(actions).winner.None? by { InitialHasNoWinner(); }
    } else {
      var before, a := actions[..|actions| - 1], actions[|actions| - 1];
      SettlementStays(EngineRun(before), a);
      RunPending(before);
      MaximalIff(before);
      StepKeepsMaximal(EngineRun(before), a);
    }
  }

  lemma InitialHasNoWinner()
    ensures EngineRun([]).winner.None?
  {
  }

  /** What any settlement of the engine pays, in any run. The winner's bid is always found. The announced bid
      is a maximum of all bids exactly when the run covered it; the payout in USD is what was bid exactly when no
      second bid shares the winner's id; and then the seller gets the announced amount. */
  lemma SettlementExact(actions: seq<Action>)
    requires var s := EngineRun(actions); s.winner.Some? && s.settlement.None?
    ensures var s := EngineRun(actions);
            var found := FindBid(s.bids, s.winner.value.bidder);
            && found.Some? && SettleStep(s).settlement == s.winner
            && (Maximal(SettleStep(s)) <==> Covered(actions))
            && |SettleStep(s).notes| >= |s.notes|
            && SettleStep(s).notes[|s.notes|..] == Outputs(s, found.value)
            && (UsdTotal(Outputs(s, found.value)) == BidTotal(s.bids) <==> Claims(s.bids, s.winner.value.bidder) == 1)
            && (Claims(s.bids, s.winner.value.bidder) == 1 ==> found.value.amount == s.winner.value.amount)
  {
    hide BestFrom, Covered;
    var s := EngineRun(actions);
    RunPending(actions);
    MaximalIff(actions);
    SettleKeepsMaximal(s);
    var i :| 0 <= i < |s.bids| && Winner(s.bids[i].bidder, s.bids[i].amount) == s.winner.value;
    PayoutExact(s);
    if Claims(s.bids, s.winner.value.bidder) == 1 {
      SoleClaim(s.bids, i);
    }
  }

  /** The only bid under an id is the one found. */
  lemma {:induction false} SoleClaim(bids: seq<Bid>, i: nat)
    requires i < |bids| && Claims(bids, bids[i].bidder) == 1
    ensures FindBid(bids, bids[i].bidder) == Some(bids[i])
  {
    if i > 0 {
      SomeClaim(bids[1..], i - 1);
      SoleClaim(bids[1..], i - 1);
    }
  }

  lemma {:induction false} SomeClaim(bids: seq<Bid>, i: nat)
    requires i < |bids|
    ensures Claims(bids, bids[i].bidder) >= 1
  {
    if i > 0 {
      SomeClaim(bids[1..], i - 1);
    }
  }

  // ---------- a second way to fail: relisting ----------

  const FUNDS := [Note(SELLER, ClassA, 1, AuctionAsset, Locked), Note(VISITOR, Usd, 300, Funding, Unspent),
                  Note(VISITOR, Usd, 900, Funding, Unspent)]
  const FIRST := [Note(SELLER, ClassA, 1, AuctionAsset, Locked), Note(VISITOR, Usd, 300, Funding, Spent),
                  Note(VISITOR, Usd, 900, Funding, Unspent)]
  const RELISTED := FIRST + [Note(SELLER, ClassA, 1, AuctionAsset, Locked)]
  const BIDS := [Bid(VISITOR, 300, Some(1), Active)] + OTHER_BIDS

  lemma FundedForTwo() returns (actions: seq<Action>)
    ensures EngineRun(actions) == OPEN
  {
    WholeDollars(1);
    WholeDollars(1200);
    WholeDollars(300);
    WholeDollars(900);
    var a1 := [] + [GenerateKey];
    Extend([], GenerateKey);
    var a2 := a1 + [RegisterAuctioneer];
    Extend(a1, RegisterAuctioneer);
    var a3 := a2 + [MintNft(Dollars(1))];
    Extend(a2, MintNft(Dollars(1)));
    var a4 := a3 + [ListAsset];
    Extend(a3, ListAsset);
    var a5 := a4 + [MintCash(Dollars(1200))];
    Extend(a4, MintCash(Dollars(1200)));
    var a6 := a5 + [ShieldCash(Dollars(300))];
    Extend(a5, ShieldCash(Dollars(300)));
    actions := a6 + [ShieldCash(Dollars(900))];
    Extend(a6, ShieldCash(Dollars(900)));
  }

  const OPEN := State(true, true, true, 1, 0, true, Some(0), 0, 1200, [], false, Bidding, None, false, None, FUNDS)
  const CLOSED := OPEN.(privateCash := 900, notes := FIRST, bids := BIDS, otherBidsCollected := true, status := Closed)
  const DECLARED := CLOSED.(status := Status.Announced, winner := Some(Winner(4, 610)))

  /** One bid of 300, the four others, closed and announced: 610 is a maximum. */
  lemma AnnouncedRun() returns (actions: seq<Action>)
    ensures EngineRun(actions) == DECLARED && Maximal(DECLARED)
  {
    hide Next;
    var a := FundedForTwo();
    var steps := [SubmitBid(1, Dollars(300)), CollectBids, CloseBidding];
    ThreeSteps(a, steps);
    BidsClose();
    Extend(a + steps, ProveWinner);
    actions := a + steps + [ProveWinner];
    Declares();
  }

  lemma BidsClose()
    ensures Next(Next(Next(OPEN, SubmitBid(1, Dollars(300))), CollectBids), CloseBidding) == CLOSED
  {
    hide BestFrom, SettleStep;
    WholeDollars(300);
    var s1 := Next(OPEN, SubmitBid(1, Dollars(300)));
    assert s1.bids == [Bid(VISITOR, 300, Some(1), Active)] && s1.notes == FIRST;
    assert s1 == OPEN.(privateCash := 900, notes := FIRST, bids := [Bid(VISITOR, 300, Some(1), Active)]);
  }

  lemma Declares()
    ensures Next(CLOSED, ProveWinner) == DECLARED && Maximal(DECLARED)
  {
    hide FindBid, SettleStep;
    BestOfFive();
  }

  lemma BestOfFive()
    ensures BestFrom(BIDS, None) == Some(Bid(4, 610, None, Active))
    ensures forall i :: 0 <= i < |BIDS| ==> BIDS[i].amount <= 610
  {
    assert BIDS[1..] == OTHER_BIDS;
    assert OTHER_BIDS[1..][1..] == OTHER_BIDS[2..] && OTHER_BIDS[2..][1..] == [OTHER_BIDS[3]];
  }

  /** All bids collected and 610 announced: the certificate can be minted and listed again, which reopens the
      bidding. A bid of 900 is accepted, and the settlement that follows still pays 610. */
  lemma RelistingFails() returns (before: seq<Action>, actions: seq<Action>)
    ensures Maximal(EngineRun(before)) && EngineRun(before).otherBidsCollected
    ensures actions == before + [MintNft(Dollars(1)), ListAsset, SubmitBid(2, Dollars(900))]
    ensures var s := EngineRun(actions);
            && !Maximal(s) && SettleStep(s) != s && s.winner == Some(Winner(4, 610))
            && 5 < |s.bids| && s.bids[5].amount == 900 && s.bids[0].bidder == s.bids[5].bidder == VISITOR
            && |s.notes| + 1 < |SettleStep(s).notes|
            && SettleStep(s).notes[|s.notes| + 1] == Note(SELLER, Usd, 610, Output, Unspent)
  {
    hide Covered, SettleStep;
    before := AnnouncedRun();
    var steps := [MintNft(Dollars(1)), ListAsset, SubmitBid(2, Dollars(900))];
    actions := before + steps;
    ThreeSteps(before, steps);
    Relisted(EngineRun(before));
    RunPending(actions);
    SettlementExact(actions);
    var s := EngineRun(actions);
    assert s.bids[5].amount == 900;
    assert s.bids[0] == BIDS[0] && s.bids[1] == OTHER_BIDS[0];
    assert s.bids[2] == OTHER_BIDS[1] && s.bids[3] == OTHER_BIDS[2];
    FindsFirst(s.bids, 3);
    assert SettleStep(s).notes[|s.notes|..][1] == Note(SELLER, Usd, 610, Output, Unspent);
  }

  lemma ThreeSteps(before: seq<Action>, steps: seq<Action>)
    requires |steps| == 3
    ensures EngineRun(before + steps) == Next(Next(Next(EngineRun(before), steps[0]), steps[1]), steps[2])
  {
    hide Next;
    Extend(before, steps[0]);
    Extend(before + [steps[0]], steps[1]);
    Extend(before + [steps[0]] + [steps[1]], steps[2]);
    assert before + steps == before + [steps[0]] + [steps[1]] + [steps[2]];
  }

  lemma Relisted(s: State)
    requires s == DECLARED
    ensures var s' := Next(Next(Next(s, MintNft(Dollars(1))), ListAsset), SubmitBid(2, Dollars(900)));
            && s'.bids == BIDS + [Bid(VISITOR, 900, Some(2), Active)]
            && s'.winner == s.winner && s'.settlement == s.settlement
  {
    hide BestFrom, FindBid, SettleStep;
    WholeDollars(1);
    WholeDollars(900);
    var s1 := Next(s, MintNft(Dollars(1)));
    assert s1 == s.(sellerPublicNft := 1);
    var s2 := Next(s1, ListAsset);
    assert s2.status == Bidding && s2.notes == RELISTED && s2.bids == BIDS;
    assert RELISTED[2] == Note(VISITOR, Usd, 900, Funding, Unspent);
  }
}
