/** What minting, constructing a payment, pausing and freezing do, in terms of the request alone. */
module InstitutionalRequests {
  import opened Amounts
  import opened Wrappers
  import opened Group
  import opened Sorting
  import opened Institutional
  import opened InstitutionalPayment

  // ---------- minting ----------

  predicate MayMint<P>(s: State<P>, owner: bool, id: int, amount: int) {
    && owner && !s.paused && 1 <= id <= |s.accounts| && 1 <= amount <= 1_000_000_000
    && -MAX_SAFE <= s.totalSupplyAmount + amount <= MAX_SAFE
    && -MAX_SAFE <= s.accounts[id - 1].balance + amount <= MAX_SAFE
  }

  /** The recipient and the supply grow by the amount, the recipient's randomness stays, the epoch advances and the
      draft is dropped; nothing else changes. */
  ghost predicate Minted<P>(g: Group<P>, s: State<P>, s': State<P>, id: int, amount: int)
    requires g.order > 0
  {
    && 1 <= id <= |s.accounts| == |s'.accounts|
    && (forall j :: 0 <= j < |s.accounts| && j != id - 1 ==> s'.accounts[j] == s.accounts[j])
    && s'.accounts[id - 1].balance == s.accounts[id - 1].balance + amount
    && s'.accounts[id - 1].randomness == s.accounts[id - 1].randomness
    && s'.accounts[id - 1].commitment == g.add(s.accounts[id - 1].commitment, Scale(g, amount, g.G))
    && s'.totalSupplyAmount == s.totalSupplyAmount + amount
    && s'.totalSupplyCommitment == g.add(s.totalSupplyCommitment, Scale(g, amount, g.G))
    && s'.epoch == s.epoch + 1 && s'.current.None?
    && s' == s.(accounts := s'.accounts, totalSupplyAmount := s'.totalSupplyAmount,
                totalSupplyCommitment := s'.totalSupplyCommitment, epoch := s'.epoch, current := s'.current)
  }

  lemma MintExact<P(!new)>(w: World<P>, s: State<P>, owner: bool, id: int, amount: int)
    requires Lawful(w.g)
    ensures var s' := Next(w, s, Fund(owner, id, amount));
            if MayMint(s, owner, id, amount) then Minted(w.g, s, s', id, amount) else s' == s
  {
    Neutral(w.g, Scale(w.g, amount, w.g.G));
  }

  // ---------- constructing a payment ----------

  /** The conditions on a request, as it arrives: ids in any order. */
  predicate Payable<P>(s: State<P>, input: PaymentInput) {
    var ids, rs := input.accountIds, input.recipients;
    && s.channels && !s.paused
    && (input.k == 2 || input.k == 6) && |ids| == input.k
    && (forall i, j :: 0 <= i < j < |ids| ==> ids[i] != ids[j])
    && (forall i :: 0 <= i < |ids| ==> 1 <= ids[i] <= |s.accounts| && ids[i] !in s.frozen)
    && 1 <= |rs| <= input.k - 1 && input.payerId in ids
    && (forall i :: 0 <= i < |rs| ==>
          rs[i].accountId != input.payerId && rs[i].accountId in ids && 0 < rs[i].amount <= MAX_SAFE)
    && (forall i, j :: 0 <= i < j < |rs| ==> rs[i].accountId != rs[j].accountId)
    && TotalAmount(rs) <= MAX_SAFE && TotalAmount(rs) <= s.accounts[input.payerId - 1].balance
  }

  /** What a request asks for one account: the payer pays the total, each recipient gets its own amount. */
  ghost predicate Asks(input: PaymentInput, id: int, value: int) {
    && (id == input.payerId ==> value == -TotalAmount(input.recipients))
    && (forall j :: 0 <= j < |input.recipients| && input.recipients[j].accountId == id ==>
          value == input.recipients[j].amount)
    && (id != input.payerId && (forall j :: 0 <= j < |input.recipients| ==> input.recipients[j].accountId != id) ==>
          value == 0)
  }

  /** The batch carries the request: same payer, recipients and members, one row per member with what was asked. */
  ghost predicate Carries<P>(g: Group<P>, s: State<P>, input: PaymentInput, b: Batch<P>)
    requires g.order > 0
  {
    && b.k == input.k && b.payerId == input.payerId && b.recipients == input.recipients && b.epoch == s.epoch
    && b.amount == TotalAmount(input.recipients)
    && Sorted(b.accountIds) && multiset(b.accountIds) == multiset(input.accountIds)
    && |b.rows| == |b.accountIds|
    && forall i :: 0 <= i < |b.rows| ==> RowCarries(g, s, input, b.accountIds[i], b.rows[i])
  }

  ghost predicate RowCarries<P>(g: Group<P>, s: State<P>, input: PaymentInput, id: int, row: Row<P>)
    requires g.order > 0
  {
    && row.accountId == id && 1 <= id <= |s.accounts| && Asks(input, id, row.value)
    && var a := s.accounts[id - 1];
       && row.before == a.commitment && row.previousBalance == a.balance && row.previousRandomness == a.randomness
       && row.valuePoint == Scale(g, row.value, g.G) && row.randomPoint == Scale(g, row.r, g.H)
       && row.delta == g.add(row.valuePoint, row.randomPoint) && row.after == g.add(a.commitment, row.delta)
       && row.balance == a.balance + row.value && row.randomness == (a.randomness + row.r) % g.order
  }

  lemma {:induction false} FindsAmount(rs: seq<Recipient>, j: nat)
    requires j < |rs| && forall i :: 0 <= i < j ==> rs[i].accountId != rs[j].accountId
    ensures AmountFor(rs, rs[j].accountId) == rs[j].amount
  {
    if j > 0 {
      FindsAmount(rs[1..], j - 1);
    }
  }

  lemma AsksAmountFor(input: PaymentInput, id: int)
    requires forall i :: 0 <= i < |input.recipients| ==> input.recipients[i].accountId != input.payerId
    requires forall i, j :: 0 <= i < j < |input.recipients| ==>
               input.recipients[i].accountId != input.recipients[j].accountId
    ensures Asks(input, id,
                 if id == input.payerId then -TotalAmount(input.recipients) else AmountFor(input.recipients, id))
  {
    var rs := input.recipients;
    forall j | 0 <= j < |rs| && rs[j].accountId == id ensures AmountFor(rs, id) == rs[j].amount {
      FindsAmount(rs, j);
    }
    if forall j :: 0 <= j < |rs| ==> rs[j].accountId != id {
      AmountForStranger(rs, id);
    }
  }

  /** Construction accepts exactly the requests that meet these conditions. */
  lemma BuildAccepts<P(!new)>(w: World<P>, s: State<P>, input: PaymentInput)
    requires w.g.order > 0
    ensures Build(w, s, input).Ok? <==> Payable(s, input)
  {
    hide BatchFor, Sort, TotalAmount;
    var ids, rs := input.accountIds, input.recipients;
    SortKeeps(ids);
    if Distinct(Sort(ids)) {
      SortedDistinct(ids);
    }
    MembersAgree(s, ids);
    RecipientsAgree(rs);
    if GoodAmounts(rs) {
      AmountForBounds(rs, 0);
    }
  }

  lemma RecipientsAgree(rs: seq<Recipient>)
    ensures Distinct(RecipientIds(rs)) <==> forall i, j :: 0 <= i < j < |rs| ==> rs[i].accountId != rs[j].accountId
  {
  }

  lemma SortedDistinct(ids: seq<int>)
    requires Distinct(Sort(ids))
    ensures Distinct(ids)
  {
    SortSorts(ids);
    forall i, j | 0 <= i < j < |ids| ensures ids[i] != ids[j] {
      if ids[i] == ids[j] {
        TwiceInMultiset(ids, i, j);
        OnceInMultiset(Sort(ids), ids[i]);
        assert false;
      }
    }
  }

  /** Conditions on every member do not depend on the order. */
  lemma MembersAgree<P>(s: State<P>, ids: seq<int>)
    ensures (forall i :: 0 <= i < |ids| ==> 1 <= ids[i] <= |s.accounts|)
            <==> forall i :: 0 <= i < |Sort(ids)| ==> Registered(s.accounts, Sort(ids)[i])
    ensures (forall i :: 0 <= i < |ids| ==> ids[i] !in s.frozen)
            <==> forall i :: 0 <= i < |Sort(ids)| ==> Sort(ids)[i] !in s.frozen
  {
    hide Sort;
    SortSorts(ids);
    var r := Sort(ids);
    forall i | 0 <= i < |r| ensures r[i] in ids {
      assert r[i] in multiset(ids);
    }
    forall i | 0 <= i < |ids| ensures ids[i] in r {
      assert ids[i] in multiset(r);
    }
  }

  /** A constructed batch carries its request, whatever order the ids arrive in. */
  lemma BuildCarries<P(!new)>(w: World<P>, s: State<P>, input: PaymentInput)
    requires w.g.order > 0 && Build(w, s, input).Ok?
    ensures Carries(w.g, s, input, Build(w, s, input).value)
  {
    hide Sort, Sorted, RowFor, Signals, RowCarries, ContextOf;
    var ids, b := Sort(input.accountIds), Build(w, s, input).value;
    SortSorts(input.accountIds);
    var c := ContextOf(w, s.accounts, s.epoch, input.payerId, ids, input.recipients);
    assert c == Context(s.accounts, input.payerId, input.recipients, TotalAmount(input.recipients), c.senderSecret,
                        c.nullifier, c.senderR) by {
      ContextIs(w, s.accounts, s.epoch, input.payerId, ids, input.recipients);
    }
    forall i | 0 <= i < |b.rows| ensures RowCarries(w.g, s, input, b.accountIds[i], b.rows[i]) {
      assert b.rows[i] == RowFor(w, c, ids[i]);
      MemberRow(w, s, input, c, ids[i]);
    }
  }

  lemma MemberRow<P>(w: World<P>, s: State<P>, input: PaymentInput, c: Context<P>, id: int)
    requires w.g.order > 0 && Registered(s.accounts, id)
    requires c == Context(s.accounts, input.payerId, input.recipients, TotalAmount(input.recipients), c.senderSecret,
                          c.nullifier, c.senderR)
    requires forall i :: 0 <= i < |input.recipients| ==> input.recipients[i].accountId != input.payerId
    requires Distinct(RecipientIds(input.recipients))
    ensures RowCarries(w.g, s, input, id, RowFor(w, c, id))
  {
    hide Asks, SlotR, SlotTag, SlotNonce;
    RecipientsAgree(input.recipients);
    AsksAmountFor(input, id);
  }

  // ---------- pausing, freezing, dropping a draft ----------

  /** Only the owner pauses and resumes, and that changes the pause flag alone. */
  lemma PauseExact<P(!new)>(w: World<P>, s: State<P>, owner: bool, value: bool)
    requires w.g.order > 0
    ensures var s' := Next(w, s, SetPaused(owner, value));
            s' == s.(paused := s'.paused) && (s'.paused <==> if owner then value else s.paused)
  {
  }

  /** Only the owner and the auditor freeze, only registered accounts, and that changes this account's flag alone. */
  lemma FreezeExact<P(!new)>(w: World<P>, s: State<P>, authorized: bool, id: int, value: bool)
    requires w.g.order > 0
    ensures var s' := Next(w, s, SetFrozen(authorized, id, value));
            && s' == s.(frozen := s'.frozen)
            && (forall j :: j in s'.frozen <==> if j == id && authorized && 1 <= id <= |s.accounts| then value
                                                else j in s.frozen)
  {
  }

  /** While the contract is paused nothing moves value and no new draft, proof or post comes about. */
  lemma PausedStops<P(!new)>(w: World<P>, s: State<P>, a: Action)
    requires w.g.order > 0 && s.paused
    ensures var s' := Next(w, s, a);
            && s'.accounts == s.accounts && s'.totalSupplyAmount == s.totalSupplyAmount && s'.settled == s.settled
            && s'.epoch == s.epoch && |s'.drafts| == |s.drafts| && |s'.posts| == |s.posts|
            && (a.Prove? ==> s' == s)
  {
    hide BatchFor, RowOpens, BindingOf, SumOf;
  }

  /** Editing the request drops the draft, and nothing else. */
  lemma EditStops<P(!new)>(w: World<P>, s: State<P>, a: Action)
    requires w.g.order > 0
    ensures var s' := Next(w, s, EditPayment);
            && s' == s.(current := None)
            && (!a.Calculate? ==> Next(w, s', a).current.None? && Next(w, s', a).settled == s.settled)
  {
    hide Next;
    assert Next(w, s, EditPayment) == s.(current := None) by { EditDrops(w, s); }
    if !a.Calculate? {
      NoDraftStops(w, s.(current := None), a);
    }
  }

  lemma EditDrops<P(!new)>(w: World<P>, s: State<P>)
    requires w.g.order > 0
    ensures Next(w, s, EditPayment) == s.(current := None)
  {
  }

  /** Without a current draft nothing can be proved, posted or settled until a new one is calculated. */
  lemma NoDraftStops<P(!new)>(w: World<P>, s: State<P>, a: Action)
    requires w.g.order > 0 && s.current.None? && !a.Calculate?
    ensures var s' := Next(w, s, a);
            s'.current.None? && s'.settled == s.settled && |s'.posts| == |s.posts| && (a.Prove? ==> s' == s)
  {
    hide BatchFor, Validates, BindingOf;
  }
}
