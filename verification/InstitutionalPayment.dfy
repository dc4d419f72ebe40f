/** What `buildInstitutionalPayment` computes: a batch that conserves value and randomness, extends every
    member's opening, and passes every check of `validateInstitutionalPayment`. */
module InstitutionalPayment {
  import opened Numbers
  import opened Group
  import opened Sorting
  import opened Institutional
  import opened InstitutionalLedger

  // ---------- conservation of value ----------

  /** Amounts credited to the members other than the payer. */
  function OthersAmount(ids: seq<int>, payerId: int, rs: seq<Recipient>): int {
    if ids == [] then 0
    else (if ids[0] == payerId then 0 else AmountFor(rs, ids[0])) + OthersAmount(ids[1..], payerId, rs)
  }

  lemma {:induction false} AmountForStranger(rs: seq<Recipient>, id: int)
    requires id !in RecipientIds(rs)
    ensures AmountFor(rs, id) == 0
  {
    if rs != [] {
      assert RecipientIds(rs)[0] == rs[0].accountId;
      assert forall x :: x in RecipientIds(rs[1..]) ==> x in RecipientIds(rs);
      AmountForStranger(rs[1..], id);
    }
  }

  lemma {:induction false} NoRecipients(ids: seq<int>, payerId: int)
    ensures OthersAmount(ids, payerId, []) == 0
  {
    if ids != [] {
      NoRecipients(ids[1..], payerId);
    }
  }

  lemma {:induction false} PeelRecipient(ids: seq<int>, payerId: int, rs: seq<Recipient>)
    requires rs != [] && Distinct(ids) && rs[0].accountId != payerId && rs[0].accountId !in RecipientIds(rs[1..])
    ensures OthersAmount(ids, payerId, rs)
         == OthersAmount(ids, payerId, rs[1..]) + if rs[0].accountId in ids then rs[0].amount else 0
  {
    if ids != [] {
      PeelRecipient(ids[1..], payerId, rs);
      AmountForStranger(rs[1..], rs[0].accountId);
      assert ids == [ids[0]] + ids[1..];
    }
  }

  /** Distinct recipients inside the set receive exactly their amounts, once each. */
  lemma {:induction false} CreditsAddUp(ids: seq<int>, payerId: int, rs: seq<Recipient>)
    requires Distinct(ids) && Distinct(RecipientIds(rs))
    requires forall i :: 0 <= i < |rs| ==> rs[i].accountId != payerId && rs[i].accountId in ids
    ensures OthersAmount(ids, payerId, rs) == TotalAmount(rs)
  {
    if rs == [] {
      NoRecipients(ids, payerId);
    } else {
      var rest := rs[1..];
      assert forall i {:trigger rest[i]} :: 0 <= i < |rest| ==> rest[i] == rs[i + 1];
      assert RecipientIds(rs) == [rs[0].accountId] + RecipientIds(rest);
      CreditsAddUp(ids, payerId, rest);
      PeelRecipient(ids, payerId, rs);
    }
  }

  lemma {:induction false} AmountForBounds(rs: seq<Recipient>, id: int)
    requires GoodAmounts(rs)
    ensures AmountFor(rs, id) >= 0 && TotalAmount(rs) >= 0 && (rs != [] ==> TotalAmount(rs) > 0)
  {
    if rs != [] {
      AmountForBounds(rs[1..], id);
    }
  }

  ghost predicate AllRegistered<P>(c: Context<P>, ids: seq<int>) {
    forall i :: 0 <= i < |ids| ==> Registered(c.accounts, ids[i])
  }

  lemma {:induction false} RowValues<P>(w: World<P>, c: Context<P>, ids: seq<int>)
    requires w.g.order > 0 && AllRegistered(c, ids) && Distinct(ids)
    ensures SumValues(Rows(w, c, ids))
         == OthersAmount(ids, c.payerId, c.recipients) - if c.payerId in ids then c.amount else 0
  {
    if ids != [] {
      RowValues(w, c, ids[1..]);
      assert ids == [ids[0]] + ids[1..];
      assert Rows(w, c, ids)[1..] == Rows(w, c, ids[1..]);
    }
  }

  // ---------- conservation of randomness ----------

  lemma {:induction false} RowRandomness<P>(w: World<P>, c: Context<P>, ids: seq<int>)
    requires w.g.order > 0 && AllRegistered(c, ids) && Distinct(ids)
    ensures Congruent(SumRandom(Rows(w, c, ids)), (if c.payerId in ids then c.senderR else 0) - OthersR(w, c, ids),
                      w.g.order)
  {
    if ids != [] {
      var m, rest, id := w.g.order, ids[1..], ids[0];
      RowRandomness(w, c, rest);
      assert ids == [id] + rest;
      assert Rows(w, c, ids)[1..] == Rows(w, c, rest);
      var tail := SumRandom(Rows(w, c, rest));
      var payer := if c.payerId in rest then c.senderR else 0;
      var r := RowFor(w, c, id).r;
      var x := if id == c.payerId then c.senderR else -SlotR(w, c, id);
      assert Congruent(r, x, m) by { ResidueOfResidue(x, m); }
      CongruentAdd(r, x, tail, payer - OthersR(w, c, rest), m);
    }
  }

  /** The payer's randomness delta cancels the others'. */
  lemma {:induction false} RandomnessCancels<P>(w: World<P>, c: Context<P>, ids: seq<int>)
    requires w.g.order > 0 && AllRegistered(c, ids) && Distinct(ids) && c.payerId in ids
    requires c.senderR == OthersR(w, c, ids) % w.g.order
    ensures Congruent(SumRandom(Rows(w, c, ids)), 0, w.g.order)
  {
    var m, others := w.g.order, OthersR(w, c, ids);
    RowRandomness(w, c, ids);
    ResidueOfResidue(others, m);
    CongruentSub(c.senderR, others, others, others, m);
  }

  /** The slot hashes do not depend on the payer's own randomness delta. */
  lemma {:induction false} OthersRIgnoresSenderR<P>(w: World<P>, c: Context<P>, x: int, ids: seq<int>)
    requires w.g.order > 0
    ensures OthersR(w, c, ids) == OthersR(w, c.(senderR := x), ids)
  {
    if ids != [] {
      OthersRIgnoresSenderR(w, c, x, ids[1..]);
    }
  }

  // ---------- openings ----------

  lemma {:induction false} RowExtends<P(!new)>(w: World<P>, c: Context<P>, id: int)
    requires Lawful(w.g) && Registered(c.accounts, id) && Opens(w.g, c.accounts[id - 1])
    requires c.amount <= c.accounts[id - 1].balance || id != c.payerId
    requires GoodAmounts(c.recipients)
    ensures RowFits(w.g, c.accounts, RowFor(w, c, id)) && RowOpens(w, RowFor(w, c, id))
  {
    var a, row := c.accounts[id - 1], RowFor(w, c, id);
    AmountForBounds(c.recipients, id);
    ResidueOfResidue(a.randomness + row.r, w.g.order);
    PedersenAdd(w.g, a.balance, a.randomness, row.value, row.r);
    PedersenModulo(w.g, row.balance, a.randomness + row.r, row.balance, row.randomness);
  }

  lemma {:induction false} DeltasSum<P(!new)>(w: World<P>, rows: seq<Row<P>>)
    requires Lawful(w.g) && forall i :: 0 <= i < |rows| ==> rows[i].delta == Pedersen(w.g, rows[i].value, rows[i].r)
    ensures SumOf(w.g, Deltas(rows)) == Pedersen(w.g, SumValues(rows), SumRandom(rows))
  {
    if rows == [] {
      PedersenZero(w.g);
    } else {
      DeltasSum(w, rows[1..]);
      assert Deltas(rows)[1..] == Deltas(rows[1..]);
      PedersenAdd(w.g, rows[0].value, rows[0].r, SumValues(rows[1..]), SumRandom(rows[1..]));
    }
  }

  lemma {:induction false} OnlyPayerDebited<P>(w: World<P>, c: Context<P>, ids: seq<int>)
    requires w.g.order > 0 && AllRegistered(c, ids) && Distinct(ids) && GoodAmounts(c.recipients) && c.amount > 0
    ensures Debits(Rows(w, c, ids)) == if c.payerId in ids then [c.payerId] else []
  {
    if ids != [] {
      OnlyPayerDebited(w, c, ids[1..]);
      AmountForBounds(c.recipients, ids[0]);
      assert ids == [ids[0]] + ids[1..];
      assert Rows(w, c, ids)[1..] == Rows(w, c, ids[1..]);
    }
  }

  // ---------- the batch ----------

  /** Everything a batch built from a good request guarantees, whatever the allowed recipient split. */
  ghost predicate Conserving<P>(w: World<P>, accounts: seq<Account<P>>, b: Batch<P>)
    requires w.g.order > 0
  {
    && RowsFit(w.g, accounts, b.rows)
    && (forall i :: 0 <= i < |b.rows| ==> RowOpens(w, b.rows[i]))
    && SumValues(b.rows) == 0
    && Congruent(SumRandom(b.rows), 0, w.g.order)
    && SumOf(w.g, Deltas(b.rows)) == w.g.zero
    && Debits(b.rows) == [b.payerId]
  }

  lemma RowsExtend<P(!new)>(w: World<P>, c: Context<P>, ids: seq<int>)
    requires Lawful(w.g) && AllOpen(w.g, c.accounts) && AllRegistered(c, ids) && Distinct(ids)
    requires Registered(c.accounts, c.payerId) && c.amount <= c.accounts[c.payerId - 1].balance
             && GoodAmounts(c.recipients)
    ensures RowsFit(w.g, c.accounts, Rows(w, c, ids))
    ensures forall i :: 0 <= i < |ids| ==> RowOpens(w, Rows(w, c, ids)[i])
  {
    forall i | 0 <= i < |ids|
      ensures RowFits(w.g, c.accounts, RowFor(w, c, ids[i])) && RowOpens(w, RowFor(w, c, ids[i]))
    {
      assert Opens(w.g, c.accounts[ids[i] - 1]);
      RowExtends(w, c, ids[i]);
    }
  }

  lemma {:induction false} BatchConserves<P(!new)>(w: World<P>, accounts: seq<Account<P>>, epoch: int, k: int,
                                                   payerId: int, ids: seq<int>, rs: seq<Recipient>)
    requires Lawful(w.g) && AllOpen(w.g, accounts) && GoodRequest(accounts, k, payerId, ids, rs)
    ensures Conserving(w, accounts, BatchFor(w, accounts, epoch, k, payerId, ids, rs))
  {
    var c := ContextOf(w, accounts, epoch, payerId, ids, rs);
    var rows := Rows(w, c, ids);
    assert AllRegistered(c, ids);
    AmountForBounds(rs, payerId);
    RowsExtend(w, c, ids);
    RowValues(w, c, ids);
    CreditsAddUp(ids, payerId, rs);
    OthersRIgnoresSenderR(w, c, 0, ids);
    RandomnessCancels(w, c, ids);
    DeltasSum(w, rows);
    PedersenModulo(w.g, SumValues(rows), SumRandom(rows), 0, 0);
    PedersenZero(w.g);
    OnlyPayerDebited(w, c, ids);
  }

  /** Applying a conserving batch keeps every opening and both totals. */
  lemma {:induction false} ConservingKeepsTotals<P(!new)>(w: World<P>, accounts: seq<Account<P>>, b: Batch<P>)
    requires Lawful(w.g) && AllOpen(w.g, accounts) && Conserving(w, accounts, b)
    requires Congruent(TotalRandomness(accounts), 0, w.g.order)
    ensures AllOpen(w.g, ApplyRows(accounts, b.rows))
    ensures TotalBalance(ApplyRows(accounts, b.rows)) == TotalBalance(accounts)
    ensures Congruent(TotalRandomness(ApplyRows(accounts, b.rows)), 0, w.g.order)
  {
    ApplyRowsSound(w.g, accounts, b.rows);
    CongruentAdd(TotalRandomness(accounts), 0, SumRandom(b.rows), 0, w.g.order);
  }

  lemma ContextIs<P>(w: World<P>, accounts: seq<Account<P>>, epoch: int, payerId: int, ids: seq<int>,
                     rs: seq<Recipient>)
    requires w.g.order > 0 && Registered(accounts, payerId)
    ensures var c := ContextOf(w, accounts, epoch, payerId, ids, rs);
            c == Context(accounts, payerId, rs, TotalAmount(rs), c.senderSecret, c.nullifier, c.senderR)
  {
  }

  lemma RowIsMembers<P>(w: World<P>, c: Context<P>, id: int)
    requires w.g.order > 0 && Registered(c.accounts, id)
    ensures var row, a := RowFor(w, c, id), c.accounts[id - 1];
            && row.accountId == id && row.before == a.commitment
            && row.balance == a.balance + if id == c.payerId then -c.amount else AmountFor(c.recipients, id)
  {
    hide SlotR, SlotTag, SlotNonce, Pedersen, Scale;
  }

  /** Completeness: in a sound state every batch that `build` returns passes every check of `validate`. */
  lemma {:induction false} BuildValidates<P(!new)>(w: World<P>, s: State<P>, input: PaymentInput)
    requires Lawful(w.g) && Sound(w.g, s) && Build(w, s, input).Ok?
    ensures Validates(w, s, Build(w, s, input).value)
  {
    hide Sort, Signals, RowFor, SlotR, SumOf, Deltas, Debits, RowOpens, SumValues, ContextOf;
    var ids, b := Sort(input.accountIds), Build(w, s, input).value;
    var c := ContextOf(w, s.accounts, s.epoch, input.payerId, ids, input.recipients);
    ContextIs(w, s.accounts, s.epoch, input.payerId, ids, input.recipients);
    forall i | 0 <= i < |b.rows|
      ensures b.rows[i].accountId == ids[i] && b.rows[i].before == s.accounts[ids[i] - 1].commitment
    {
      RowIsMembers(w, c, ids[i]);
    }
    BatchConserves(w, s.accounts, s.epoch, input.k, input.payerId, ids, input.recipients);
    forall i | 0 <= i < |b.rows| ensures b.rows[i].balance >= 0 {
      assert RowFits(w.g, s.accounts, b.rows[i]);
    }
  }

  /** Each member's balance moves by exactly what the request says. */
  lemma {:induction false} BatchBalances<P(!new)>(w: World<P>, accounts: seq<Account<P>>, epoch: int, k: int,
                                                  payerId: int, ids: seq<int>, rs: seq<Recipient>, id: int)
    requires Lawful(w.g) && AllOpen(w.g, accounts) && GoodRequest(accounts, k, payerId, ids, rs)
    requires Registered(accounts, id)
    ensures RowsFit(w.g, accounts, BatchFor(w, accounts, epoch, k, payerId, ids, rs).rows)
    ensures ApplyRows(accounts, BatchFor(w, accounts, epoch, k, payerId, ids, rs).rows)[id - 1].balance
         == accounts[id - 1].balance + if id == payerId then -TotalAmount(rs) else AmountFor(rs, id)
  {
    var c := ContextOf(w, accounts, epoch, payerId, ids, rs);
    BatchConserves(w, accounts, epoch, k, payerId, ids, rs);
    MemberBalance(w, c, ids, id);
  }

  lemma MemberBalance<P>(w: World<P>, c: Context<P>, ids: seq<int>, id: int)
    requires w.g.order > 0 && AllRegistered(c, ids) && RowsFit(w.g, c.accounts, Rows(w, c, ids))
    requires Registered(c.accounts, id) && c.payerId in ids
    requires forall i :: 0 <= i < |c.recipients| ==> c.recipients[i].accountId in ids
    ensures ApplyRows(c.accounts, Rows(w, c, ids))[id - 1].balance
         == c.accounts[id - 1].balance + if id == c.payerId then -c.amount else AmountFor(c.recipients, id)
  {
    hide ApplyRows, RowsFit, RowFor;
    ApplyRowsAt(w.g, c.accounts, Rows(w, c, ids), id);
    forall i | 0 <= i < |ids| ensures Rows(w, c, ids)[i].accountId == ids[i] {
      RowIsMembers(w, c, ids[i]);
    }
    if id in ids {
      RowIsMembers(w, c, id);
      var i :| 0 <= i < |ids| && ids[i] == id;
      assert Rows(w, c, ids)[i].accountId == id;
    } else {
      AmountForStranger(c.recipients, id);
    }
  }
}
