/** The ledger invariant and its preservation by a batch of rows. */
module InstitutionalLedger {
  import opened Amounts
  import opened Numbers
  import opened Group
  import opened Institutional

  function TotalBalance<P>(accounts: seq<Account<P>>): int {
    if accounts == [] then 0 else accounts[0].balance + TotalBalance(accounts[1..])
  }

  function TotalRandomness<P>(accounts: seq<Account<P>>): int {
    if accounts == [] then 0 else accounts[0].randomness + TotalRandomness(accounts[1..])
  }

  function Commitments<P>(accounts: seq<Account<P>>): seq<P> {
    if accounts == [] then [] else [accounts[0].commitment] + Commitments(accounts[1..])
  }

  ghost predicate Opens<P>(g: Group<P>, a: Account<P>)
    requires g.order > 0
  {
    a.commitment == Pedersen(g, a.balance, a.randomness) && a.balance >= 0 && 0 <= a.randomness < g.order
  }

  ghost predicate AllOpen<P>(g: Group<P>, accounts: seq<Account<P>>)
    requires g.order > 0
  {
    forall i :: 0 <= i < |accounts| ==> Opens(g, accounts[i])
  }

  /** Every commitment opens, value adds up to the supply, randomness cancels. */
  ghost predicate Sound<P>(g: Group<P>, s: State<P>)
    requires g.order > 0
  {
    && |s.accounts| == NUM_PARTIES
    && AllOpen(g, s.accounts)
    && TotalBalance(s.accounts) == s.totalSupplyAmount <= MAX_SAFE
    && Congruent(TotalRandomness(s.accounts), 0, g.order)
    && s.totalSupplyCommitment == Pedersen(g, s.totalSupplyAmount, 0)
  }

  // ---------- what Sound gives ----------

  lemma {:induction false} BalanceBelowTotal<P>(g: Group<P>, accounts: seq<Account<P>>, i: nat)
    requires g.order > 0 && AllOpen(g, accounts) && i < |accounts|
    ensures 0 <= accounts[i].balance <= TotalBalance(accounts)
  {
    TotalNonnegative(g, accounts[1..]);
    assert Opens(g, accounts[0]);
    if i > 0 {
      BalanceBelowTotal(g, accounts[1..], i - 1);
    }
  }

  lemma {:induction false} TotalNonnegative<P>(g: Group<P>, accounts: seq<Account<P>>)
    requires g.order > 0 && AllOpen(g, accounts)
    ensures TotalBalance(accounts) >= 0
  {
    if accounts != [] {
      assert Opens(g, accounts[0]);
      TotalNonnegative(g, accounts[1..]);
    }
  }

  lemma {:induction false} CommitmentsSum<P(!new)>(g: Group<P>, accounts: seq<Account<P>>)
    requires Lawful(g) && AllOpen(g, accounts)
    ensures SumOf(g, Commitments(accounts)) == Pedersen(g, TotalBalance(accounts), TotalRandomness(accounts))
  {
    if accounts == [] {
      PedersenZero(g);
    } else {
      var rest := accounts[1..];
      CommitmentsSum(g, rest);
      assert Opens(g, accounts[0]);
      assert Commitments(accounts)[1..] == Commitments(rest);
      PedersenAdd(g, accounts[0].balance, accounts[0].randomness, TotalBalance(rest), TotalRandomness(rest));
    }
  }

  /** The published commitments add up to the published supply, and no balance leaves the safe range. */
  lemma SoundConsequences<P(!new)>(g: Group<P>, s: State<P>)
    requires Lawful(g) && Sound(g, s)
    ensures SumOf(g, Commitments(s.accounts)) == s.totalSupplyCommitment
    ensures forall i :: 0 <= i < |s.accounts| ==> 0 <= s.accounts[i].balance <= MAX_SAFE
  {
    CommitmentsSum(g, s.accounts);
    PedersenModulo(g, s.totalSupplyAmount, TotalRandomness(s.accounts), s.totalSupplyAmount, 0);
    forall i | 0 <= i < |s.accounts| ensures 0 <= s.accounts[i].balance <= MAX_SAFE {
      BalanceBelowTotal(g, s.accounts, i);
    }
  }

  // ---------- updates ----------

  lemma {:induction false} UpdateTotals<P>(accounts: seq<Account<P>>, i: nat, a: Account<P>)
    requires i < |accounts|
    ensures TotalBalance(accounts[i := a]) == TotalBalance(accounts) - accounts[i].balance + a.balance
    ensures TotalRandomness(accounts[i := a]) == TotalRandomness(accounts) - accounts[i].randomness + a.randomness
  {
    if i == 0 {
      assert accounts[i := a][1..] == accounts[1..];
    } else {
      UpdateTotals(accounts[1..], i - 1, a);
      assert accounts[i := a][1..] == accounts[1..][i - 1 := a];
    }
  }

  /** A row that correctly extends the account it names. */
  ghost predicate RowFits<P>(g: Group<P>, accounts: seq<Account<P>>, row: Row<P>)
    requires g.order > 0
  {
    && Registered(accounts, row.accountId)
    && var a := accounts[row.accountId - 1];
       && row.balance == a.balance + row.value
       && Congruent(row.randomness, a.randomness + row.r, g.order)
       && Opens(g, Account(row.balance, row.randomness, row.after))
  }

  ghost predicate RowsFit<P>(g: Group<P>, accounts: seq<Account<P>>, rows: seq<Row<P>>)
    requires g.order > 0
  {
    && (forall i {:trigger rows[i]} :: 0 <= i < |rows| ==> RowFits(g, accounts, rows[i]))
    && (forall i, j :: 0 <= i < j < |rows| ==> rows[i].accountId != rows[j].accountId)
  }

  lemma RowsFitRest<P>(g: Group<P>, accounts: seq<Account<P>>, rows: seq<Row<P>>, a: Account<P>)
    requires g.order > 0 && RowsFit(g, accounts, rows) && rows != []
    ensures Registered(accounts, rows[0].accountId)
    ensures RowsFit(g, accounts[rows[0].accountId - 1 := a], rows[1..])
  {
    assert RowFits(g, accounts, rows[0]);
    forall i | 0 <= i < |rows[1..]| ensures RowFits(g, accounts[rows[0].accountId - 1 := a], rows[1..][i]) {
      assert RowFits(g, accounts, rows[i + 1]);
    }
  }

  /** Applying fitting rows keeps every opening and shifts the totals by the rows' totals. */
  lemma {:induction false} ApplyRowsSound<P(!new)>(g: Group<P>, accounts: seq<Account<P>>, rows: seq<Row<P>>)
    requires Lawful(g) && AllOpen(g, accounts) && RowsFit(g, accounts, rows)
    ensures AllOpen(g, ApplyRows(accounts, rows))
    ensures TotalBalance(ApplyRows(accounts, rows)) == TotalBalance(accounts) + SumValues(rows)
    ensures Congruent(TotalRandomness(ApplyRows(accounts, rows)), TotalRandomness(accounts) + SumRandom(rows), g.order)
    decreases |rows|
  {
    if rows != [] {
      var row := rows[0];
      assert RowFits(g, accounts, row);
      var prior := accounts[row.accountId - 1];
      var a := Account(row.balance, row.randomness, row.after);
      var next := accounts[row.accountId - 1 := a];
      RowsFitRest(g, accounts, rows, a);
      ApplyRowsSound(g, next, rows[1..]);
      UpdateTotals(accounts, row.accountId - 1, a);
      var t, rest := TotalRandomness(accounts), SumRandom(rows[1..]);
      CongruentAdd(row.randomness, prior.randomness + row.r, t - prior.randomness + rest, t - prior.randomness + rest,
                   g.order);
    }
  }

  /** Accounts outside the batch keep their entry; a member gets exactly its row. */
  lemma {:induction false} ApplyRowsAt<P>(g: Group<P>, accounts: seq<Account<P>>, rows: seq<Row<P>>, id: int)
    requires g.order > 0 && RowsFit(g, accounts, rows) && Registered(accounts, id)
    ensures (forall i :: 0 <= i < |rows| ==> rows[i].accountId != id) ==>
              ApplyRows(accounts, rows)[id - 1] == accounts[id - 1]
    ensures forall i :: 0 <= i < |rows| && rows[i].accountId == id ==>
              ApplyRows(accounts, rows)[id - 1] == Account(rows[i].balance, rows[i].randomness, rows[i].after)
    decreases |rows|
  {
    if rows != [] {
      var row := rows[0];
      var a := Account(row.balance, row.randomness, row.after);
      RowsFitRest(g, accounts, rows, a);
      ApplyRowsAt(g, accounts[row.accountId - 1 := a], rows[1..], id);
      forall i | 0 <= i < |rows| && rows[i].accountId == id
        ensures ApplyRows(accounts, rows)[id - 1] == Account(rows[i].balance, rows[i].randomness, rows[i].after)
      {
        if i > 0 {
          assert rows[i] == rows[1..][i - 1];
        }
      }
    }
  }
}
