/** The auction through the walkthrough: at most one mint, one listing, one visitor bid, and collection before
    the close. */
module AuctionRuns {
  import opened Wrappers
  import opened Amounts
  import opened Auction
  import opened AuctionSafety

  // ---------- the visitor's cash ----------

  lemma {:induction false} CashAppend(notes: seq<Note>, more: seq<Note>)
    ensures VisitorCash(notes + more) == VisitorCash(notes) + VisitorCash(more)
  {
    if notes == [] {
      assert notes + more == more;
    } else {
      CashAppend(notes[1..], more);
      assert (notes + more)[1..] == notes[1..] + more;
    }
  }

  lemma {:induction false} CashUpdate(notes: seq<Note>, i: nat, n: Note)
    requires i < |notes|
    ensures VisitorCash(notes[i := n]) == VisitorCash(notes) - Cash(notes[i]) + Cash(n)
  {
    if i == 0 {
      assert notes[i := n][1..] == notes[1..];
    } else {
      CashUpdate(notes[1..], i - 1, n);
      assert notes[i := n][1..] == notes[1..][i - 1 := n];
    }
  }

  ghost predicate Worthless(notes: seq<Note>, id: Option<nat>) {
    id.Some? && id.value < |notes| ==> Cash(notes[id.value]) == 0
  }

  lemma SpendWorthless(notes: seq<Note>, id: Option<nat>, other: Option<nat>)
    requires Worthless(notes, id)
    ensures VisitorCash(SpendAt(notes, id)) == VisitorCash(notes)
    ensures Worthless(notes, other) ==> Worthless(SpendAt(notes, id), other)
  {
    if id.Some? && id.value < |notes| {
      CashUpdate(notes, id.value, notes[id.value].(status := Spent));
    }
  }

  lemma {:induction false} SpendWorthlessInputs(notes: seq<Note>, bids: seq<Bid>)
    requires forall i :: 0 <= i < |bids| ==> Worthless(notes, bids[i].inputNote)
    ensures VisitorCash(SpendInputs(notes, bids)) == VisitorCash(notes)
    decreases |bids|
  {
    if bids != [] {
      var rest := bids[1..];
      SpendWorthless(notes, bids[0].inputNote, None);
      forall i | 0 <= i < |rest| ensures Worthless(SpendAt(notes, bids[0].inputNote), rest[i].inputNote) {
        assert rest[i] == bids[i + 1];
        SpendWorthless(notes, bids[0].inputNote, rest[i].inputNote);
      }
      SpendWorthlessInputs(SpendAt(notes, bids[0].inputNote), rest);
    }
  }

  lemma {:induction false} RecoveredCash(losers: seq<Bid>)
    ensures VisitorCash(Recoveries(losers)) == ClaimTotal(losers, VISITOR)
  {
    if losers != [] {
      RecoveredCash(losers[1..]);
    }
  }

  lemma {:induction false} LoserClaims(bids: seq<Bid>, winner: nat)
    requires forall i :: 0 <= i < |bids| ==> bids[i].status == Active
    ensures ClaimTotal(Losers(bids, winner), VISITOR) == if winner == VISITOR then 0 else ClaimTotal(bids, VISITOR)
  {
    if bids != [] {
      LoserClaims(bids[1..], winner);
      var rest := Losers(bids[1..], winner);
      if bids[0].bidder != winner {
        assert Losers(bids, winner) == [bids[0]] + rest;
      } else {
        assert Losers(bids, winner) == rest;
      }
    }
  }

  lemma OutputCash(s: State, winner: Bid)
    requires forall i :: 0 <= i < |s.bids| ==> s.bids[i].status == Active
    ensures VisitorCash(Outputs(s, winner)) == if winner.bidder == VISITOR then 0 else ClaimTotal(s.bids, VISITOR)
  {
    var fixed := [Note(winner.bidder, ClassA, s.assetQuantity, Output, Unspent),
                  Note(SELLER, Usd, winner.amount, Output, Unspent)];
    CashAppend(fixed, Recoveries(Losers(s.bids, winner.bidder)));
    assert fixed[1..][1..] == [];
    assert VisitorCash(fixed) == 0;
    RecoveredCash(Losers(s.bids, winner.bidder));
    LoserClaims(s.bids, winner.bidder);
  }

  // ---------- the shape of the bid list ----------

  /** Nothing, the visitor's bid, or the visitor's bid followed by the four others. */
  ghost predicate Shape(bids: seq<Bid>, collected: bool) {
    if collected then |bids| == 5 && bids[0].bidder == VISITOR && bids[1..] == OTHER_BIDS
    else bids == [] || (|bids| == 1 && bids[0].bidder == VISITOR)
  }

  lemma {:induction false} ClaimsAre(bids: seq<Bid>, bidder: nat, n: nat)
    requires n < |bids| && bids[n].bidder == bidder
    requires forall i :: 0 <= i < |bids| && i != n ==> bids[i].bidder != bidder
    ensures Claims(bids, bidder) == 1 && FindBid(bids, bidder) == Some(bids[n])
  {
    if n == 0 {
      NoClaims(bids[1..], bidder);
    } else {
      ClaimsAre(bids[1..], bidder, n - 1);
    }
  }

  lemma {:induction false} NoClaims(bids: seq<Bid>, bidder: nat)
    requires forall i :: 0 <= i < |bids| ==> bids[i].bidder != bidder
    ensures Claims(bids, bidder) == 0
  {
    if bids != [] {
      NoClaims(bids[1..], bidder);
    }
  }

  /** Every bidder has one bid, which the lookup by id finds. */
  lemma UniqueBid(bids: seq<Bid>, n: nat)
    requires Shape(bids, true) && n < 5
    ensures Claims(bids, bids[n].bidder) == 1 && FindBid(bids, bids[n].bidder) == Some(bids[n])
  {
    ClaimsAre(bids, bids[n].bidder, n);
  }

  // ---------- the invariant ----------

  ghost predicate Open(s: State) {
    && Shape(s.bids, s.otherBidsCollected)
    && (forall i :: 0 <= i < |s.bids| ==>
          s.bids[i].amount > 0 && s.bids[i].status == Active && Worthless(s.notes, s.bids[i].inputNote))
    && s.settlement.None?
  }

  ghost predicate Stage(s: State) {
    match s.status
    case Draft => !s.listed && s.bids == [] && s.winner.None? && Open(s)
    case Bidding => s.listed && s.winner.None? && Open(s)
    case Closed => s.listed && s.winner.None? && s.otherBidsCollected && Open(s)
    case Announced => s.listed && s.otherBidsCollected && Open(s) && WinnerOk(s)
    case Settled =>
      && s.listed && s.otherBidsCollected && s.settlement.Some? && s.winner.Some? && |s.bids| == 5 && Maximal(s)
      && s.bids[0].bidder == VISITOR
  }

  ghost predicate WinnerOk(s: State) {
    Maximal(s) && exists n :: 0 <= n < |s.bids| && Winner(s.bids[n].bidder, s.bids[n].amount) == s.winner.value
  }

  ghost predicate Inv(s: State) {
    Stage(s) && Worthless(s.notes, s.nftNote) && s.privateCash == VisitorCash(s.notes)
    && (s.nftNote.Some? ==> s.nftNote.value < |s.notes|)
    && (forall i :: 0 <= i < |s.bids| ==> s.bids[i].inputNote.Some? ==> s.bids[i].inputNote.value < |s.notes|)
  }

  lemma AddNote(s: State, s': State, n: Note)
    requires Inv(s) && s'.notes == s.notes + [n] && s'.bids == s.bids && s'.otherBidsCollected == s.otherBidsCollected
    requires s'.settlement == s.settlement && s'.winner == s.winner && s'.privateCash == s.privateCash + Cash(n)
    requires (s'.nftNote == s.nftNote && s'.status == s.status && s'.listed == s.listed)
             || (s'.nftNote == Some(|s.notes|) && Cash(n) == 0 && s.status == Draft && s'.status == Bidding
                 && s'.listed)
    ensures Inv(s')
  {
    CashAppend(s.notes, [n]);
    assert [n][1..] == [];
  }

  lemma SubmitInv(s: State, note: nat, v: JsNumber)
    requires Inv(s) && s.status == Bidding && s.bids == [] && CanBid(s, note, v)
    requires s.notes[note].asset == Usd
    ensures Inv(SubmitStep(s, note, v))
  {
    var s' := SubmitStep(s, note, v);
    var amount := PositiveAmount(v).value;
    var change := s.notes[note].amount - amount;
    var spent := SpendAt(s.notes, Some(note));
    CashUpdate(s.notes, note, s.notes[note].(status := Spent));
    if change > 0 {
      var extra := [Note(VISITOR, Usd, change, Change, Unspent)];
      CashAppend(spent, extra);
      assert extra[1..] == [];
    }
  }

  lemma SettleInv(s: State)
    requires Inv(s) && s.status == Announced
    ensures Inv(SettleStep(s)) && SettleStep(s).settlement.Some?
  {
    hide FindBid, VisitorCash, Claims, BestFrom, Outputs, Decided;
    var n :| 0 <= n < |s.bids| && Winner(s.bids[n].bidder, s.bids[n].amount) == s.winner.value;
    UniqueBid(s.bids, n);
    SettleCash(s, s.bids[n]);
    SettledKeeps(s, s.bids[n]);
  }

  lemma SettleCash(s: State, winner: Bid)
    requires Open(s) && s.otherBidsCollected && s.winner.Some? && Worthless(s.notes, s.nftNote)
    requires FindBid(s.bids, s.winner.value.bidder) == Some(winner)
    ensures SettleStep(s).privateCash - s.privateCash == VisitorCash(SettleStep(s).notes) - VisitorCash(s.notes)
  {
    UniqueBid(s.bids, 0);
    FirstClaim(s.bids, VISITOR);
    var spent := SpendAt(s.notes, s.nftNote);
    forall i | 0 <= i < |s.bids| ensures Worthless(spent, s.bids[i].inputNote) {
      SpendWorthless(s.notes, s.nftNote, s.bids[i].inputNote);
    }
    SpendWorthless(s.notes, s.nftNote, None);
    SpendWorthlessInputs(spent, s.bids);
    CashAppend(SpendInputs(spent, s.bids), Outputs(s, winner));
    OutputCash(s, winner);
  }

  /** Settlement keeps the announced maximum and spends the certificate note. */
  lemma SettledKeeps(s: State, winner: Bid)
    requires Inv(s) && s.status == Announced && FindBid(s.bids, s.winner.value.bidder) == Some(winner)
    ensures Stage(SettleStep(s)) && Worthless(SettleStep(s).notes, s.nftNote)
    ensures |SettleStep(s).notes| >= |s.notes| && |SettleStep(s).bids| == |s.bids|
    ensures forall i :: 0 <= i < |s.bids| ==> SettleStep(s).bids[i].inputNote == s.bids[i].inputNote
  {
    hide BestFrom, FindBid, SpendInputs, Decided, Outputs, VisitorCash, BidTotal;
    DecidedAt(s.bids, winner.bidder);
    if s.nftNote.Some? {
      SpentStays(SpendAt(s.notes, s.nftNote), s.bids, s.nftNote.value);
    }
  }

  lemma {:induction false} SpentStays(notes: seq<Note>, bids: seq<Bid>, k: nat)
    requires k < |notes| && notes[k].status == Spent
    ensures SpendInputs(notes, bids)[k].status == Spent
    decreases |bids|
  {
    if bids != [] {
      SpentStays(SpendAt(notes, bids[0].inputNote), bids[1..], k);
    }
  }

  lemma ProveInv(s: State)
    requires Inv(s) && s.status == Closed
    ensures Inv(Next(s, ProveWinner)) && Next(s, ProveWinner).status == Announced
  {
    BestIsMaximal(s.bids, None);
    var best := BestFrom(s.bids, None);
    assert s.bids[0].status == Active;
    var n :| 0 <= n < |s.bids| && s.bids[n] == best.value;
    assert Winner(s.bids[n].bidder, s.bids[n].amount) == Next(s, ProveWinner).winner.value;
  }

  lemma CollectInv(s: State)
    requires Inv(s) && FindBid(s.bids, VISITOR).Some? && !s.otherBidsCollected
    ensures Inv(Next(s, CollectBids))
  {
    var bids := s.bids + OTHER_BIDS;
    assert |s.bids| == 1 && bids[1..] == OTHER_BIDS;
    forall i | 0 <= i < |bids|
      ensures bids[i].amount > 0 && bids[i].status == Active && Worthless(s.notes, bids[i].inputNote)
    {
      if i > 0 {
        assert bids[i] == OTHER_BIDS[i - 1];
      }
    }
  }

  /** Funding notes are USD, and nothing is minted or listed twice. */
  ghost predicate Setup(s: State) {
    && (forall i :: 0 <= i < |s.notes| && s.notes[i].origin == Funding ==> s.notes[i].asset == Usd)
    && (!s.nftMinted ==> !s.listed)
  }

  lemma SetupNext(s: State, a: Action)
    requires Setup(s) && UiEnabled(s, a)
    ensures Setup(Next(s, a))
  {
    if a.Settle? && SettleStep(s) != s {
      SettleSetup(s, FindBid(s.bids, s.winner.value.bidder).value);
    }
  }

  lemma SettleSetup(s: State, winner: Bid)
    requires Setup(s) && SettleStep(s) != s && FindBid(s.bids, s.winner.value.bidder) == Some(winner)
    ensures Setup(SettleStep(s))
  {
    hide FindBid, SpendInputs, Outputs, Decided;
    var spent, outputs := SpendAt(s.notes, s.nftNote), Outputs(s, winner);
    var notes := SettleStep(s).notes;
    assert notes == SpendInputs(spent, s.bids) + outputs;
    OutputKinds(s, winner);
    forall i | 0 <= i < |notes| ensures notes[i].origin == Funding ==> notes[i].asset == Usd {
      if i < |s.notes| {
        SpendKeepsKind(spent, s.bids, i);
        assert spent[i].origin == s.notes[i].origin && spent[i].asset == s.notes[i].asset;
      }
    }
  }

  lemma OutputKinds(s: State, winner: Bid)
    ensures forall i :: 0 <= i < |Outputs(s, winner)| ==> Outputs(s, winner)[i].origin != Funding
  {
    var losers := Losers(s.bids, winner.bidder);
    RecoveriesPay(losers);
    forall i | 0 <= i < |Outputs(s, winner)| ensures Outputs(s, winner)[i].origin != Funding {
      if i >= 2 {
        assert Outputs(s, winner)[i] == Recoveries(losers)[i - 2];
      }
    }
  }

  lemma {:induction false} SpendKeepsKind(notes: seq<Note>, bids: seq<Bid>, k: nat)
    requires k < |notes|
    ensures var n := SpendInputs(notes, bids)[k];
            n.origin == notes[k].origin && n.asset == notes[k].asset && n.owner == notes[k].owner
            && n.amount == notes[k].amount
    decreases |bids|
  {
    if bids != [] {
      SpendKeepsKind(SpendAt(notes, bids[0].inputNote), bids[1..], k);
    }
  }

  lemma NextInv(s: State, a: Action)
    requires Inv(s) && Setup(s) && UiEnabled(s, a)
    ensures Inv(Next(s, a))
  {
    hide SettleStep, BestFrom;
    match a
    case ListAsset =>
      if Next(s, a) != s {
        AddNote(s, Next(s, a), Note(SELLER, ClassA, s.assetQuantity, AuctionAsset, Locked));
      }
    case ShieldCash(v) =>
      if Next(s, a) != s {
        AddNote(s, Next(s, a), Note(VISITOR, Usd, PositiveAmount(v).value, Funding, Unspent));
      }
    case SubmitBid(note, v) =>
      if CanBid(s, note, v) {
        SubmitInv(s, note, v);
      }
    case CollectBids => CollectInv(s);
    case ProveWinner => ProveInv(s);
    case Settle => SettleInv(s);
    case _ => FlagInv(s, a);
  }

  /** Steps that touch neither notes, bids nor the visitor's private cash. */
  lemma FlagInv(s: State, a: Action)
    requires Inv(s) && UiEnabled(s, a)
    requires a.GenerateKey? || a.RegisterAuctioneer? || a.MintNft? || a.MintCash? || a.CloseBidding? || a.Challenge?
    ensures Inv(Next(s, a))
  {
  }

  lemma {:induction false} RunInv(actions: seq<Action>)
    ensures Inv(UiRun(actions)) && Setup(UiRun(actions))
    decreases |actions|
  {
    if actions != [] {
      var before, a := actions[..|actions| - 1], actions[|actions| - 1];
      RunInv(before);
      if UiEnabled(UiRun(before), a) {
        NextInv(UiRun(before), a);
        SetupNext(UiRun(before), a);
      }
    }
  }

  // ---------- the theorems ----------

  /** The announced bid is a maximum over all bids, from its announcement through settlement. */
  lemma AnnouncedStaysMaximal(actions: seq<Action>)
    ensures UiRun(actions).winner.Some? ==> Maximal(UiRun(actions))
  {
    RunInv(actions);
  }

  /** The balance counter is the visitor's unspent USD, at every step. */
  lemma PrivateCashExact(actions: seq<Action>)
    ensures UiRun(actions).privateCash == VisitorCash(UiRun(actions).notes)
  {
    RunInv(actions);
  }

  /** Settlement, whenever it is offered, pays the seller the announced amount, gives the certificate to the
      announced bidder, returns to every other bidder exactly its own bid in one note, and pays out in USD exactly
      what was bid. Whatever happens afterwards it is never offered again, and the notes stay as it left them. */
  lemma SettlementPays(actions: seq<Action>, more: seq<Action>)
    requires UiEnabled(UiRun(actions), Settle)
    ensures var s := UiRun(actions);
            var s' := UiRun(actions + [Settle] + more);
            && s'.settlement == s.winner && s'.notes == SettleStep(s).notes && !UiEnabled(s', Settle)
            && (exists n: nat :: n < |s.bids| && s.bids[n].bidder == s.winner.value.bidder && PaidOut(s, s', n))
  {
    SettlementPaysNow(actions);
    SettledForGood(actions, more);
  }

  /** After a settlement the buttons still offered leave it and every note alone. */
  lemma {:induction false} SettledForGood(actions: seq<Action>, more: seq<Action>)
    requires UiEnabled(UiRun(actions), Settle)
    ensures var s := UiRun(actions);
            var s' := UiRun(actions + [Settle] + more);
            s'.settlement == s.winner && s'.notes == SettleStep(s).notes && s'.status == Settled
    decreases |more|
  {
    hide UiEnabled, SettleStep, Next;
    var settled := actions + [Settle];
    if more == [] {
      assert settled + more == settled && settled[..|actions|] == actions;
      RunInv(actions);
      SettleCloses(UiRun(actions));
    } else {
      var m := |more| - 1;
      var before := settled + more[..m];
      SettledForGood(actions, more[..m]);
      assert (settled + more)[..|settled + more| - 1] == before;
      assert (settled + more)[|settled + more| - 1] == more[m];
      RunInv(before);
      if UiEnabled(UiRun(before), more[m]) {
        SettledStep(UiRun(before), more[m]);
      }
    }
  }

  lemma SettleCloses(s: State)
    requires Inv(s) && UiEnabled(s, Settle)
    ensures var s' := Next(s, Settle);
            s'.settlement == s.winner && s'.notes == SettleStep(s).notes && s'.status == Settled
  {
    hide SettleStep;
    SettleInv(s);
    SettlesTo(s);
  }

  lemma SettlesTo(s: State)
    ensures SettleStep(s).settlement == s.settlement
            || (SettleStep(s).settlement == s.winner && SettleStep(s).status == Settled)
  {
  }

  lemma SettledStep(s: State, a: Action)
    requires Inv(s) && Setup(s) && s.status == Settled && UiEnabled(s, a)
    ensures Next(s, a).settlement == s.settlement && Next(s, a).notes == s.notes && Next(s, a).status == Settled
  {
    hide SettleStep, BestFrom;
    assert FindBid(s.bids, VISITOR).Some?;
  }

  lemma SettlementPaysNow(actions: seq<Action>)
    requires UiEnabled(UiRun(actions), Settle)
    ensures var s := UiRun(actions);
            var s' := Next(s, Settle);
            && s'.settlement == s.winner && !UiEnabled(s', Settle)
            && (exists n: nat :: n < |s.bids| && s.bids[n].bidder == s.winner.value.bidder && PaidOut(s, s', n))
  {
    RunInv(actions);
    var s := UiRun(actions);
    SettleInv(s);
    var n :| 0 <= n < |s.bids| && Winner(s.bids[n].bidder, s.bids[n].amount) == s.winner.value;
    PaysOut(s, n);
  }

  lemma PaysOut(s: State, n: nat)
    requires Open(s) && s.otherBidsCollected && n < |s.bids|
             && s.winner == Some(Winner(s.bids[n].bidder, s.bids[n].amount))
    ensures PaidOut(s, SettleStep(s), n) && SettleStep(s).settlement == s.winner
  {
    UniqueBid(s.bids, n);
    PayoutExact(s);
    LosersAre(s.bids, n);
    var others := s.bids[..n] + s.bids[n + 1..];
    RecoveriesPay(others);
    var created := SettleStep(s).notes[|s.notes|..];
    assert created == Outputs(s, s.bids[n]);
    assert SettleStep(s).notes[|s.notes| + 2..] == created[2..] == Recoveries(others);
  }

  /** The new notes: certificate, proceeds, and the other four bids returned in order. */
  ghost predicate PaidOut(s: State, s': State, n: nat)
    requires n < |s.bids| && s.winner.Some?
  {
    && s.bids[n].amount == s.winner.value.amount
    && |s.bids| == 5 && |s'.notes| == |s.notes| + 6
    && UsdTotal(s'.notes[|s.notes|..]) == BidTotal(s.bids)
    && s'.notes[|s.notes|] == Note(s.bids[n].bidder, ClassA, s.assetQuantity, Output, Unspent)
    && s'.notes[|s.notes| + 1] == Note(SELLER, Usd, s.bids[n].amount, Output, Unspent)
    && var others := s.bids[..n] + s.bids[n + 1..];
       forall i :: 0 <= i < 4 ==>
         s'.notes[|s.notes| + 2..][i] == Note(others[i].bidder, Usd, others[i].amount, Recovery, Unspent)
  }

  lemma {:induction false} AllLose(bids: seq<Bid>, winner: nat)
    requires forall i :: 0 <= i < |bids| ==> bids[i].bidder != winner && bids[i].status == Active
    ensures Losers(bids, winner) == bids
  {
    if bids != [] {
      AllLose(bids[1..], winner);
    }
  }

  /** The losers are the bid list without the winning bid. */
  lemma {:induction false} LosersAre(bids: seq<Bid>, n: nat)
    requires n < |bids| && forall i :: 0 <= i < |bids| ==> bids[i].status == Active
    requires forall i :: 0 <= i < |bids| && i != n ==> bids[i].bidder != bids[n].bidder
    ensures Losers(bids, bids[n].bidder) == bids[..n] + bids[n + 1..]
  {
    var rest := bids[1..];
    assert bids == [bids[0]] + rest;
    if n == 0 {
      AllLose(rest, bids[0].bidder);
    } else {
      assert rest[n - 1] == bids[n];
      LosersAre(rest, n - 1);
      assert bids[..n] == [bids[0]] + rest[..n - 1] && bids[n + 1..] == rest[n..];
    }
  }
}
