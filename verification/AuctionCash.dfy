/** The visitor's cash counter in every run of the auction engine, without the walkthrough's button guards. */
module AuctionCash {
  import opened Wrappers
  import opened Amounts
  import opened Auction
  import opened AuctionSafety
  import opened AuctionRuns
  import opened AuctionUnguarded

  /** The input of every bid and the listed certificate hold no cash of the visitor, and funding notes are USD. */
  ghost predicate Escrowed(s: State) {
    && (forall i :: 0 <= i < |s.bids| ==> Escrow(s.notes, s.bids[i].inputNote))
    && Escrow(s.notes, s.nftNote)
    && (forall i :: 0 <= i < |s.notes| && s.notes[i].origin == Funding ==> s.notes[i].asset == Usd)
  }

  ghost predicate Escrow(notes: seq<Note>, id: Option<nat>) {
    id.Some? ==> id.value < |notes| && Cash(notes[id.value]) == 0
  }

  /** What the counter falls short of the visitor's unspent USD notes. */
  function Gap(s: State): int {
    VisitorCash(s.notes) - s.privateCash
  }

  predicate Settling(s: State, a: Action) {
    a.Settle? && s.winner.Some? && s.settlement.None? && FindBid(s.bids, s.winner.value.bidder).Some?
  }

  /** The visitor loses with two or more bids: all of them are returned, one is credited. */
  predicate DoubleLoss(s: State, a: Action) {
    Settling(s, a) && s.winner.value.bidder != VISITOR && Claims(s.bids, VISITOR) >= 2
  }

  /** The visitor's bids beyond the one that the lookup finds. */
  function Excess(bids: seq<Bid>): int {
    ClaimTotal(bids, VISITOR) - if FindBid(bids, VISITOR).Some? then FindBid(bids, VISITOR).value.amount else 0
  }

  lemma ExcessSign(bids: seq<Bid>)
    requires forall i :: 0 <= i < |bids| ==> bids[i].amount > 0
    ensures Excess(bids) >= 0 && (Excess(bids) > 0 <==> Claims(bids, VISITOR) >= 2)
  {
    ClaimBounds(bids, VISITOR);
    if FindBid(bids, VISITOR).Some? {
      FirstClaim(bids, VISITOR);
      assert Claims(bids, VISITOR) != 0;
    } else {
      NoClaims(bids, VISITOR);
    }
  }

  // ---------- one step ----------

  lemma CashPush(notes: seq<Note>, n: Note)
    ensures VisitorCash(notes + [n]) == VisitorCash(notes) + Cash(n)
  {
    CashAppend(notes, [n]);
    assert [n][1..] == [];
  }

  lemma AddGap(s: State, s': State, n: Note)
    requires Escrowed(s) && s'.notes == s.notes + [n] && s'.bids == s.bids && (n.origin == Funding ==> n.asset == Usd)
    requires s'.nftNote == s.nftNote || (s'.nftNote == Some(|s.notes|) && Cash(n) == 0)
    ensures Escrowed(s') && VisitorCash(s'.notes) == VisitorCash(s.notes) + Cash(n)
  {
    CashPush(s.notes, n);
  }

  lemma SubmitGap(s: State, note: nat, v: JsNumber)
    requires Escrowed(s)
    ensures Escrowed(SubmitStep(s, note, v)) && Gap(SubmitStep(s, note, v)) == Gap(s)
  {
    hide VisitorCash, PositiveAmount;
    if CanBid(s, note, v) {
      var change := s.notes[note].amount - PositiveAmount(v).value;
      var spent := SpendAt(s.notes, Some(note));
      CashUpdate(s.notes, note, s.notes[note].(status := Spent));
      CashPush(spent, Note(VISITOR, Usd, change, Change, Unspent));
    }
  }

  lemma CollectGap(s: State)
    requires Escrowed(s)
    ensures Escrowed(Next(s, CollectBids)) && Gap(Next(s, CollectBids)) == Gap(s)
  {
    hide FindBid;
    var bids := Next(s, CollectBids).bids;
    forall i | 0 <= i < |bids| ensures Escrow(s.notes, bids[i].inputNote) {
      if i >= |s.bids| {
        assert bids[i] == OTHER_BIDS[i - |s.bids|];
      }
    }
  }

  lemma {:induction false} SpendEscrow(notes: seq<Note>, bids: seq<Bid>, k: nat)
    requires k < |notes|
    ensures Cash(notes[k]) == 0 ==> Cash(SpendInputs(notes, bids)[k]) == 0
    ensures SpendInputs(notes, bids)[k].origin == notes[k].origin && SpendInputs(notes, bids)[k].asset == notes[k].asset
    decreases |bids|
  {
    if bids != [] {
      SpendEscrow(SpendAt(notes, bids[0].inputNote), bids[1..], k);
    }
  }

  /** Settlement opens the gap by exactly the visitor's lost bids that are not credited. */
  lemma SettleGap(s: State)
    requires Pending(s) && Escrowed(s) && Settling(s, Settle)
    ensures Escrowed(SettleStep(s))
    ensures Gap(SettleStep(s)) == Gap(s) + if s.winner.value.bidder == VISITOR then 0 else Excess(s.bids)
  {
    hide FindBid, Claims, ClaimTotal;
    var winner := FindBid(s.bids, s.winner.value.bidder).value;
    var spent := SpendAt(s.notes, s.nftNote);
    SettledNotes(s, winner);
    SpendWorthless(s.notes, s.nftNote, None);
    forall i | 0 <= i < |s.bids| ensures Worthless(spent, s.bids[i].inputNote) {
      SpendWorthless(s.notes, s.nftNote, s.bids[i].inputNote);
    }
    SpendWorthlessInputs(spent, s.bids);
    CashAppend(SpendInputs(spent, s.bids), Outputs(s, winner));
    OutputCash(s, winner);
  }

  lemma SettledNotes(s: State, winner: Bid)
    requires Escrowed(s) && Settling(s, Settle) && FindBid(s.bids, s.winner.value.bidder) == Some(winner)
    ensures SettleStep(s).notes == SpendInputs(SpendAt(s.notes, s.nftNote), s.bids) + Outputs(s, winner)
    ensures Escrowed(SettleStep(s))
  {
    hide FindBid, Outputs, SpendInputs, Decided;
    var spent, s' := SpendAt(s.notes, s.nftNote), SettleStep(s);
    DecidedAt(s.bids, winner.bidder);
    OutputKinds(s, winner);
    forall k | 0 <= k < |s.notes|
      ensures Cash(s.notes[k]) == 0 ==> Cash(s'.notes[k]) == 0
      ensures s'.notes[k].origin == s.notes[k].origin && s'.notes[k].asset == s.notes[k].asset
    {
      SpendEscrow(spent, s.bids, k);
    }
    forall i | 0 <= i < |s'.bids| ensures Escrow(s'.notes, s'.bids[i].inputNote) {
      assert Escrow(s.notes, s.bids[i].inputNote);
    }
  }

  lemma ListGap(s: State)
    requires Escrowed(s)
    ensures Escrowed(Next(s, ListAsset)) && Gap(Next(s, ListAsset)) == Gap(s)
  {
    hide VisitorCash, Escrowed, FindBid, SettleStep, SubmitStep, BestFrom;
    var s' := Next(s, ListAsset);
    if s'.notes != s.notes {
      AddGap(s, s', Note(SELLER, ClassA, s.assetQuantity, AuctionAsset, Locked));
    } else {
      assert s' == s;
    }
  }

  lemma ShieldGap(s: State, v: JsNumber)
    requires Escrowed(s)
    ensures Escrowed(Next(s, ShieldCash(v))) && Gap(Next(s, ShieldCash(v))) == Gap(s)
  {
    hide VisitorCash, Escrowed, FindBid, SettleStep, SubmitStep, BestFrom, PositiveAmount;
    var s' := Next(s, ShieldCash(v));
    if s'.notes != s.notes {
      AddGap(s, s', Note(VISITOR, Usd, PositiveAmount(v).value, Funding, Unspent));
    } else {
      assert s' == s;
    }
  }

  lemma SameGap(s: State, s': State)
    requires Escrowed(s) && s'.notes == s.notes && s'.bids == s.bids && s'.nftNote == s.nftNote
    ensures Escrowed(s')
  {
  }

  lemma OtherGap(s: State, a: Action)
    requires Escrowed(s) && !a.ListAsset? && !a.ShieldCash? && !a.SubmitBid? && !a.CollectBids? && !a.Settle?
    ensures Escrowed(Next(s, a)) && Gap(Next(s, a)) == Gap(s)
  {
    hide VisitorCash, Escrowed, FindBid, SettleStep, SubmitStep, BestFrom, PositiveAmount;
    SameGap(s, Next(s, a));
  }

  /** A step widens the gap exactly when the visitor loses the settlement with two or more bids; none narrows it. */
  lemma StepGap(s: State, a: Action)
    requires Pending(s) && Escrowed(s)
    ensures Escrowed(Next(s, a))
    ensures Gap(Next(s, a)) >= Gap(s) && (Gap(Next(s, a)) > Gap(s) <==> DoubleLoss(s, a))
  {
    hide FindBid, Claims, ClaimTotal, SettleStep, Escrowed, Gap, SubmitStep, BestFrom, PositiveAmount;
    match a
    case ListAsset => ListGap(s);
    case ShieldCash(v) => ShieldGap(s, v);
    case SubmitBid(note, v) => SubmitGap(s, note, v);
    case CollectBids => CollectGap(s);
    case Settle =>
      if Settling(s, Settle) {
        SettleGap(s);
        ExcessSign(s.bids);
      } else {
        NotSettling(s);
      }
    case _ => OtherGap(s, a);
  }

  lemma NotSettling(s: State)
    requires !Settling(s, Settle)
    ensures SettleStep(s) == s
  {
  }

  // ---------- over runs ----------

  predicate NoDoubleLoss(actions: seq<Action>)
    decreases |actions|
  {
    actions == []
    || (NoDoubleLoss(actions[..|actions| - 1])
        && !DoubleLoss(EngineRun(actions[..|actions| - 1]), actions[|actions| - 1]))
  }

  lemma {:induction false} RunEscrowed(actions: seq<Action>)
    ensures Escrowed(EngineRun(actions))
    ensures Gap(EngineRun(actions)) >= 0 && (Gap(EngineRun(actions)) == 0 <==> NoDoubleLoss(actions))
    decreases |actions|
  {
    hide Next, DoubleLoss, Escrowed;
    if actions == [] {
      assert Escrowed(EngineRun(actions)) && Gap(EngineRun(actions)) == 0 by { EmptyGap(); }
    } else {
      var before := actions[..|actions| - 1];
      RunEscrowed(before);
      RunPending(before);
      StepGap(EngineRun(before), actions[|actions| - 1]);
    }
  }

  lemma EmptyGap()
    ensures Escrowed(EngineRun([])) && Gap(EngineRun([])) == 0
  {
  }

  /** In every run of the engine the cash counter never exceeds the visitor's unspent USD notes, and it equals their sum
      exactly when the visitor never lost a settlement with two or more bids. */
  lemma CashExactIff(actions: seq<Action>)
    ensures EngineRun(actions).privateCash <= VisitorCash(EngineRun(actions).notes)
    ensures EngineRun(actions).privateCash == VisitorCash(EngineRun(actions).notes) <==> NoDoubleLoss(actions)
  {
    RunEscrowed(actions);
  }

  lemma {:induction false} TwoClaims(bids: seq<Bid>, bidder: nat, i: nat, j: nat)
    requires i < j < |bids| && bids[i].bidder == bids[j].bidder == bidder
    ensures Claims(bids, bidder) >= 2
  {
    if i > 0 {
      TwoClaims(bids[1..], bidder, i - 1, j - 1);
    } else {
      SomeClaim(bids[1..], j - 1);
    }
  }

  /** The engine reaches such a settlement: after it the counter is below what the visitor holds. */
  lemma CashFails() returns (actions: seq<Action>)
    ensures EngineRun(actions).settlement.Some?
    ensures EngineRun(actions).privateCash < VisitorCash(EngineRun(actions).notes)
  {
    hide SettleStep, VisitorCash;
    var before, open := RelistingFails();
    var s := EngineRun(open);
    actions := open + [Settle];
    Extend(open, Settle);
    assert Settling(s, Settle) by {
      if !Settling(s, Settle) {
        NotSettling(s);
      }
    }
    TwoClaims(s.bids, VISITOR, 0, 5);
    assert DoubleLoss(s, Settle);
    assert actions[..|open|] == open;
    CashExactIff(actions);
    assert SettleStep(s).settlement.Some? by { Settles(s); }
  }

  lemma Settles(s: State)
    requires Settling(s, Settle)
    ensures SettleStep(s).settlement.Some?
  {
  }
}
