/** When a draft can be proved, posted and settled, over every run; and what validation guarantees of any batch. */
module InstitutionalGuards {
  import opened Wrappers
  import opened Group
  import opened Institutional
  import opened InstitutionalLedger
  import opened InstitutionalPayment
  import opened InstitutionalRuns
  import opened InstitutionalLiveness

  // ---------- proofs ----------

  /** A draft's proof is always one of its own binding. */
  ghost predicate Honest<P>(s: State<P>) {
    forall i :: 0 <= i < |s.drafts| && s.drafts[i].proof.Some? ==>
      s.drafts[i].proof == Some(BindingOf(s.drafts[i].batch))
  }

  lemma HonestNext<P(!new)>(w: World<P>, s: State<P>, a: Action)
    requires w.g.order > 0 && Honest(s)
    ensures Honest(Next(w, s, a))
  {
    hide CanProve, CanSettle, Build, BindingOf, ApplyRows, MintError;
    match a
    case ResumePost(n) =>
      if n < |s.posts| {
        var idle := s.(posts := s.posts[n := s.posts[n].(done := true)]);
        if CanSettle(w, idle) {
          SettlesCurrent(w, idle);
        }
      }
    case _ =>
  }

  lemma {:induction false} RunHonest<P(!new)>(w: World<P>, actions: seq<Action>)
    requires w.g.order > 0
    ensures Honest(Run(w, Initial(w), actions))
    decreases |actions|
  {
    hide Honest, Next;
    if actions == [] {
      assert Honest(Run(w, Initial(w), [])) by { NothingDrafted(w); }
    } else {
      RunHonest(w, actions[..|actions| - 1]);
      HonestNext(w, Run(w, Initial(w), actions[..|actions| - 1]), actions[|actions| - 1]);
    }
  }

  lemma NothingDrafted<P(!new)>(w: World<P>)
    requires w.g.order > 0
    ensures Honest(Run(w, Initial(w), []))
  {
  }

  // ---------- the guards ----------

  /** Computed for the current epoch, with the contract unpaused and no member frozen. */
  predicate Timely<P>(s: State<P>, b: Batch<P>) {
    b.epoch == s.epoch && !s.paused && forall i :: 0 <= i < |b.accountIds| ==> b.accountIds[i] !in s.frozen
  }

  lemma ProvableIff<P(!new)>(w: World<P>, s: State<P>, i: nat)
    requires Lawful(w.g) && Inv(w, s) && i < |s.drafts|
    ensures CanProve(w, s, s.drafts[i].batch) <==> Timely(s, s.drafts[i].batch)
  {
    hide Build, RowOpens, SumOf, Debits, Deltas, BindingOf, Exact, Sound;
    var b := s.drafts[i].batch;
    assert DraftOk(w, s, s.drafts[i]);
    if Timely(s, b) {
      ExactRebuilds(w, s, b);
      BuildValidates(w, s, InputOf(b));
    }
  }

  /** In every reached state the current draft can be proved exactly when it is timely: then it is marked proved and
      carries a proof of its own binding. Otherwise nothing changes. */
  lemma {:induction false} ProvesIff<P(!new)>(w: World<P>, actions: seq<Action>)
    requires Lawful(w.g)
    ensures var s := Run(w, Initial(w), actions);
            var s' := Next(w, s, Prove);
            if s.current.Some? && s.current.value < |s.drafts| && Timely(s, s.drafts[s.current.value].batch) then
              var i := s.current.value;
              s' == s.(drafts := s.drafts[i := s.drafts[i].(status := Proved,
                                                            proof := Some(BindingOf(s.drafts[i].batch)))])
            else s' == s
  {
    hide CanProve, BindingOf, Inv;
    RunInv(w, actions);
    var s := Run(w, Initial(w), actions);
    if HasDraft(s) {
      ProvableIff(w, s, s.current.value);
    }
  }

  /** In every reached state a post starts exactly when the current draft is timely and has a proof: then the draft is
      marked submitted. Otherwise nothing changes. */
  lemma {:induction false} PostsIff<P(!new)>(w: World<P>, actions: seq<Action>)
    requires Lawful(w.g)
    ensures var s := Run(w, Initial(w), actions);
            var s' := Next(w, s, StartPost);
            if s.current.Some? && s.current.value < |s.drafts| && Timely(s, s.drafts[s.current.value].batch)
               && s.drafts[s.current.value].proof.Some? then
              var i := s.current.value;
              s' == s.(drafts := s.drafts[i := s.drafts[i].(status := Submitted, verification := 0)],
                       posts := s.posts + [Post(i, 0, false)])
            else s' == s
  {
    hide CanProve, BindingOf, Inv;
    RunInv(w, actions);
    RunHonest(w, actions);
    var s := Run(w, Initial(w), actions);
    if HasDraft(s) {
      ProvableIff(w, s, s.current.value);
    }
  }

  /** In every reached state the last resumption of an unfinished post settles exactly when the current draft, whichever
      it is, is timely and has a proof: it is confirmed, joins the settled batches, and the epoch advances. Otherwise
      the post's own draft is put back to proved, and no account changes. */
  lemma {:induction false} SettlesIff<P(!new)>(w: World<P>, actions: seq<Action>, n: nat)
    requires Lawful(w.g)
    requires var s := Run(w, Initial(w), actions); n < |s.posts| && !s.posts[n].done && s.posts[n].stage >= 6
    ensures var s := Run(w, Initial(w), actions);
            var s' := Next(w, s, ResumePost(n));
            && s'.posts == s.posts[n := s.posts[n].(done := true)] && |s'.drafts| == |s.drafts|
            && (if s.current.Some? && s.current.value < |s.drafts| && Timely(s, s.drafts[s.current.value].batch)
                   && s.drafts[s.current.value].proof.Some? then
                  var i := s.current.value;
                  && s'.epoch == s.epoch + 1 && s'.settled == s.settled + [s.drafts[i].batch]
                  && s'.drafts == s.drafts[i := s.drafts[i].(status := Confirmed)]
                else
                  var i := s.posts[n].draft;
                  && i < |s.drafts| && s'.accounts == s.accounts && s'.epoch == s.epoch && s'.settled == s.settled
                  && s'.drafts == s.drafts[i := s.drafts[i].(status := Proved, verification := 0)])
  {
    hide CanSettle, BindingOf, Inv, Settle, Run, Validates, Timely;
    RunInv(w, actions);
    RunHonest(w, actions);
    var s := Run(w, Initial(w), actions);
    assert s.posts[n].draft < |s.drafts| by { PostsHaveDrafts(w, s); }
    var idle := s.(posts := s.posts[n := s.posts[n].(done := true)]);
    PostsDoNotMatter(w, s, idle.posts);
    NullifierCheckRedundant(w, actions);
    if HasDraft(s) {
      ProvableIff(w, s, s.current.value);
      ProvableValidates(w, s, s.current.value);
    }
    if CanSettle(w, idle) {
      SettlesCurrent(w, idle);
      assert Settle(w, idle).drafts
          == s.drafts[s.current.value := s.drafts[s.current.value].(status := Confirmed)];
    }
  }

  lemma PostsHaveDrafts<P(!new)>(w: World<P>, s: State<P>)
    requires w.g.order > 0 && Inv(w, s)
    ensures forall n :: 0 <= n < |s.posts| ==> s.posts[n].draft < |s.drafts|
  {
  }

  /** Validation alone already requires timeliness, and a timely draft validates. */
  lemma ProvableValidates<P(!new)>(w: World<P>, s: State<P>, i: nat)
    requires Lawful(w.g) && Inv(w, s) && i < |s.drafts|
    ensures Validates(w, s, s.drafts[i].batch) <==> Timely(s, s.drafts[i].batch)
  {
    hide Build, RowOpens, SumOf, Debits, Deltas, BindingOf, Exact, Sound, Rebuilds;
    if Timely(s, s.drafts[i].batch) {
      ProvableIff(w, s, i);
    }
  }

  // ---------- validation of any batch ----------

  lemma {:induction false} CommitmentsUpdate<P(!new)>(g: Group<P>, accounts: seq<Account<P>>, i: nat, a: Account<P>,
                                                      d: P)
    requires Lawful(g) && i < |accounts| && a.commitment == g.add(accounts[i].commitment, d)
    ensures SumOf(g, Commitments(accounts[i := a])) == g.add(SumOf(g, Commitments(accounts)), d)
  {
    var rest := SumOf(g, Commitments(accounts[1..]));
    assert Commitments(accounts)[1..] == Commitments(accounts[1..]);
    if i == 0 {
      assert accounts[i := a][1..] == accounts[1..];
      assert Commitments(accounts[i := a])[1..] == Commitments(accounts[1..]);
      Associates(g, accounts[0].commitment, d, rest);
      Commutes(g, d, rest);
      Associates(g, accounts[0].commitment, rest, d);
    } else {
      CommitmentsUpdate(g, accounts[1..], i - 1, a, d);
      assert accounts[i := a][1..] == accounts[1..][i - 1 := a];
      assert Commitments(accounts[i := a])[1..] == Commitments(accounts[1..][i - 1 := a]);
      Associates(g, accounts[0].commitment, rest, d);
    }
  }

  ghost predicate Extends<P>(g: Group<P>, accounts: seq<Account<P>>, rows: seq<Row<P>>) {
    && (forall i {:trigger rows[i]} :: 0 <= i < |rows| ==>
          && Registered(accounts, rows[i].accountId)
          && rows[i].after == g.add(accounts[rows[i].accountId - 1].commitment, rows[i].delta))
    && (forall i, j :: 0 <= i < j < |rows| ==> rows[i].accountId != rows[j].accountId)
  }

  /** Applying rows for distinct accounts shifts the sum of all commitments by the sum of the deltas. */
  lemma {:induction false} ApplyShifts<P(!new)>(g: Group<P>, accounts: seq<Account<P>>, rows: seq<Row<P>>)
    requires Lawful(g) && Extends(g, accounts, rows)
    ensures SumOf(g, Commitments(ApplyRows(accounts, rows)))
         == g.add(SumOf(g, Commitments(accounts)), SumOf(g, Deltas(rows)))
    decreases |rows|
  {
    var sum := SumOf(g, Commitments(accounts));
    if rows == [] {
      Neutral(g, sum);
    } else {
      var row, rest := rows[0], rows[1..];
      var a := Account(row.balance, row.randomness, row.after);
      var next := accounts[row.accountId - 1 := a];
      CommitmentsUpdate(g, accounts, row.accountId - 1, a, row.delta);
      forall i | 0 <= i < |rest|
        ensures Registered(next, rest[i].accountId)
        ensures rest[i].after == g.add(next[rest[i].accountId - 1].commitment, rest[i].delta)
      {
        assert rest[i] == rows[i + 1];
      }
      ApplyShifts(g, next, rest);
      assert Deltas(rows)[1..] == Deltas(rest);
      Associates(g, sum, row.delta, SumOf(g, Deltas(rest)));
    }
  }

  /** Whatever batch passes validation, made by construction or not: applying it to distinct accounts keeps the sum of
      all commitments, and every member's new commitment opens to the balance that its row claims, which is not
      negative. */
  lemma {:induction false} ValidationProtects<P(!new)>(w: World<P>, s: State<P>, b: Batch<P>)
    requires Lawful(w.g) && Validates(w, s, b)
    requires forall i, j :: 0 <= i < j < |b.rows| ==> b.rows[i].accountId != b.rows[j].accountId
    ensures SumOf(w.g, Commitments(ApplyRows(s.accounts, b.rows))) == SumOf(w.g, Commitments(s.accounts))
    ensures SumValues(b.rows) == 0 && Debits(b.rows) == [b.payerId]
    ensures forall i :: 0 <= i < |b.rows| ==>
              b.rows[i].after == Pedersen(w.g, b.rows[i].balance, b.rows[i].randomness) && b.rows[i].balance >= 0
  {
    hide ApplyRows, SumOf, Commitments;
    assert Extends(w.g, s.accounts, b.rows);
    ApplyShifts(w.g, s.accounts, b.rows);
    Neutral(w.g, SumOf(w.g, Commitments(s.accounts)));
  }
}
