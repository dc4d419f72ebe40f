/** Safety of the institutional ledger over every interleaving of actions and post resumptions. */
module InstitutionalRuns {
  import opened Wrappers
  import opened Amounts
  import opened Hash
  import opened Group
  import opened Sorting
  import opened Institutional
  import opened InstitutionalLedger
  import opened InstitutionalPayment
  import opened InstitutionalRequests

  /** The batch is what `build` computes from these accounts at this epoch. */
  ghost predicate Exact<P>(w: World<P>, accounts: seq<Account<P>>, epoch: int, b: Batch<P>)
    requires w.g.order > 0
  {
    && Sorted(b.accountIds)
    && GoodRequest(accounts, b.k, b.payerId, b.accountIds, b.recipients)
    && b == BatchFor(w, accounts, epoch, b.k, b.payerId, b.accountIds, b.recipients)
  }

  ghost predicate Stamped<P>(b: Batch<P>) {
    b.nullifier.Hash2? && b.nullifier.b == Hash1(Num(b.epoch))
  }

  /** A draft that still carries the current epoch is exact; every older one is out of date. */
  ghost predicate DraftOk<P>(w: World<P>, s: State<P>, d: Draft<P>)
    requires w.g.order > 0
  {
    && d.batch.epoch <= s.epoch && Stamped(d.batch)
    && (d.batch.epoch == s.epoch ==> s.channels && Exact(w, s.accounts, s.epoch, d.batch))
  }

  ghost predicate History<P>(s: State<P>) {
    && (forall i :: 0 <= i < |s.settled| ==> s.settled[i].epoch < s.epoch && Stamped(s.settled[i]))
    && (forall i, j :: 0 <= i < j < |s.settled| ==> s.settled[i].epoch < s.settled[j].epoch)
  }

  ghost predicate Drafts<P>(w: World<P>, s: State<P>)
    requires w.g.order > 0
  {
    && (forall i :: 0 <= i < |s.drafts| ==> DraftOk(w, s, s.drafts[i]))
    && (s.current.Some? ==> s.current.value < |s.drafts|)
    && (forall i :: 0 <= i < |s.posts| ==> s.posts[i].draft < |s.drafts|)
  }

  ghost predicate Inv<P>(w: World<P>, s: State<P>)
    requires w.g.order > 0
  {
    Sound(w.g, s) && Drafts(w, s) && History(s)
  }

  // ---------- the initial state ----------

  lemma {:induction false} ZeroAccounts<P(!new)>(g: Group<P>, accounts: seq<Account<P>>)
    requires g.order > 0 && forall i :: 0 <= i < |accounts| ==> accounts[i] == Account(0, 0, Pedersen(g, 0, 0))
    ensures TotalBalance(accounts) == 0 && TotalRandomness(accounts) == 0
    ensures Commitments(accounts) == seq(|accounts|, (i: nat) => Pedersen(g, 0, 0))
  {
    if accounts != [] {
      ZeroAccounts(g, accounts[1..]);
    }
  }

  lemma InitialInv<P(!new)>(w: World<P>)
    requires Lawful(w.g)
    ensures Inv(w, Initial(w))
  {
    var s := Initial(w);
    ZeroAccounts(w.g, s.accounts);
    assert AllOpen(w.g, s.accounts);
    CommitmentsSum(w.g, s.accounts);
    assert Commitments(s.accounts) == seq(NUM_PARTIES, (i: nat) => Pedersen(w.g, 0, 0));
  }

  // ---------- one step ----------

  /** Steps that leave the accounts, the epoch and the settled batches alone. */
  lemma QuietStep<P(!new)>(w: World<P>, s: State<P>, s': State<P>)
    requires Lawful(w.g) && Inv(w, s)
    requires s'.accounts == s.accounts && s'.epoch == s.epoch && s'.settled == s.settled
    requires s'.totalSupplyAmount == s.totalSupplyAmount && s'.totalSupplyCommitment == s.totalSupplyCommitment
    requires s.channels ==> s'.channels
    requires |s'.drafts| >= |s.drafts|
    requires forall i :: 0 <= i < |s.drafts| ==> s'.drafts[i].batch == s.drafts[i].batch
    requires forall i :: |s.drafts| <= i < |s'.drafts| ==> DraftOk(w, s', s'.drafts[i])
    requires s'.current.Some? ==> s'.current.value < |s'.drafts|
    requires forall i :: 0 <= i < |s'.posts| ==> s'.posts[i].draft < |s'.drafts|
    ensures Inv(w, s')
  {
    forall i | 0 <= i < |s'.drafts| ensures DraftOk(w, s', s'.drafts[i]) {
      if i < |s.drafts| {
        assert DraftOk(w, s, s.drafts[i]);
      }
    }
  }

  /** Bumping the epoch retires every draft, so nothing has to be known about the old ones. */
  lemma EpochRetiresDrafts<P>(w: World<P>, s: State<P>, s': State<P>)
    requires w.g.order > 0 && Drafts(w, s) && s'.epoch == s.epoch + 1
    requires |s'.drafts| == |s.drafts| && forall i :: 0 <= i < |s.drafts| ==> s'.drafts[i].batch == s.drafts[i].batch
    requires s'.current.Some? ==> s'.current.value < |s'.drafts|
    requires forall i :: 0 <= i < |s'.posts| ==> s'.posts[i].draft < |s'.drafts|
    ensures Drafts(w, s')
    ensures forall i :: 0 <= i < |s'.drafts| ==> s'.drafts[i].batch.epoch < s'.epoch
  {
    forall i | 0 <= i < |s'.drafts| ensures DraftOk(w, s', s'.drafts[i]) && s'.drafts[i].batch.epoch < s'.epoch {
      assert DraftOk(w, s, s.drafts[i]);
    }
  }

  lemma MintInv<P(!new)>(w: World<P>, s: State<P>, owner: bool, id: int, amount: int)
    requires Lawful(w.g) && Inv(w, s)
    ensures Inv(w, Mint(w, s, owner, id, amount))
    ensures MintError(s, owner, id, amount).None? ==>
              forall i :: 0 <= i < |s.drafts| ==> s.drafts[i].batch.epoch < Mint(w, s, owner, id, amount).epoch
  {
    if MintError(s, owner, id, amount).None? {
      var s' := Mint(w, s, owner, id, amount);
      var a := s.accounts[id - 1];
      assert Opens(w.g, a);
      PedersenAdd(w.g, a.balance, a.randomness, amount, 0);
      PedersenAdd(w.g, s.totalSupplyAmount, 0, amount, 0);
      UpdateTotals(s.accounts, id - 1, s'.accounts[id - 1]);
      forall i | 0 <= i < |s'.accounts| ensures Opens(w.g, s'.accounts[i]) {
        assert Opens(w.g, s.accounts[i]);
      }
      EpochRetiresDrafts(w, s, s');
      assert s'.drafts == s.drafts;
    }
  }

  lemma {:induction false} CalculateInv<P(!new)>(w: World<P>, s: State<P>, input: PaymentInput)
    requires Lawful(w.g) && Inv(w, s)
    ensures Inv(w, CalculateStep(w, s, input))
    ensures CalculateStep(w, s, input).accounts == s.accounts
    ensures Build(w, s, input).Ok? ==>
              var s' := CalculateStep(w, s, input);
              s'.current == Some(|s.drafts|) && |s'.drafts| == |s.drafts| + 1
              && Exact(w, s.accounts, s.epoch, s'.drafts[|s.drafts|].batch)
  {
    hide Build, Carries, Exact, Stamped, Sound, History;
    if Build(w, s, input).Ok? {
      BuildIsExact(w, s, input);
      QuietStep(w, s, CalculateStep(w, s, input));
    }
  }

  lemma {:induction false} BuildIsExact<P(!new)>(w: World<P>, s: State<P>, input: PaymentInput)
    requires w.g.order > 0 && Build(w, s, input).Ok?
    ensures var b := Build(w, s, input).value;
            s.channels && b.epoch == s.epoch && Stamped(b) && Exact(w, s.accounts, s.epoch, b)
            && Carries(w.g, s, input, b)
  {
    hide Carries, Signals, Rows, OthersR, Sort, Sorted;
    BuildCarries(w, s, input);
    SortSorts(input.accountIds);
  }

  /** An exact batch is rebuilt identically as long as its members are allowed. */
  lemma {:induction false} ExactRebuilds<P(!new)>(w: World<P>, s: State<P>, b: Batch<P>)
    requires w.g.order > 0 && s.channels && Exact(w, s.accounts, s.epoch, b) && Allowed(s, b.accountIds)
    ensures Build(w, s, InputOf(b)) == Ok(b)
  {
    SortKeepsSorted(b.accountIds);
  }

  /** Settling the current draft of a state that satisfies the invariant. */
  lemma {:induction false} SettleInv<P(!new)>(w: World<P>, s: State<P>)
    requires Lawful(w.g) && Inv(w, s) && CanSettle(w, s)
    ensures Inv(w, Settle(w, s))
    ensures Exact(w, s.accounts, s.epoch, s.drafts[s.current.value].batch)
  {
    hide BatchFor, Conserving, RowOpens, SumOf, Deltas, Debits, Pedersen, BindingOf, ApplyRows;
    var b := s.drafts[s.current.value].batch;
    assert DraftOk(w, s, s.drafts[s.current.value]);
    BatchConserves(w, s.accounts, s.epoch, b.k, b.payerId, b.accountIds, b.recipients);
    ConservingKeepsTotals(w, s.accounts, b);
    EpochRetiresDrafts(w, s, Settle(w, s));
  }

  lemma {:induction false} ResumeInv<P(!new)>(w: World<P>, s: State<P>, n: nat)
    requires Lawful(w.g) && Inv(w, s)
    ensures Inv(w, ResumePostStep(w, s, n))
  {
    if n < |s.posts| && !s.posts[n].done {
      var post := s.posts[n];
      var idle := s.(posts := s.posts[n := post.(done := true)]);
      QuietStep(w, s, idle);
      if post.stage >= 6 && CanSettle(w, idle) {
        SettleInv(w, idle);
      } else {
        SetDraftInv(w, s, post.draft, ResumePostStep(w, s, n));
      }
    }
  }

  lemma {:induction false} NextInv<P(!new)>(w: World<P>, s: State<P>, a: Action)
    requires Lawful(w.g) && Inv(w, s)
    ensures Inv(w, Next(w, s, a))
  {
    match a
    case Fund(owner, id, amount) => MintInv(w, s, owner, id, amount);
    case Calculate(input) => CalculateInv(w, s, input);
    case ResumePost(n) => ResumeInv(w, s, n);
    case Prove => ProveInv(w, s);
    case StartPost => StartPostInv(w, s);
    case _ => 
  }

  lemma ProveInv<P(!new)>(w: World<P>, s: State<P>)
    requires Lawful(w.g) && Inv(w, s)
    ensures Inv(w, ProveStep(w, s))
  {
    if ProveStep(w, s) != s {
      SetDraftInv(w, s, s.current.value, ProveStep(w, s));
    }
  }

  lemma StartPostInv<P(!new)>(w: World<P>, s: State<P>)
    requires Lawful(w.g) && Inv(w, s)
    ensures Inv(w, StartPostStep(w, s))
  {
    hide CanProve, Sound, DraftOk, History;
    if StartPostStep(w, s) != s {
      SetDraftInv(w, s, s.current.value, StartPostStep(w, s));
    }
  }

  /** Changing a draft's status, verification count or proof, possibly with a new or advanced post. */
  lemma SetDraftInv<P(!new)>(w: World<P>, s: State<P>, i: nat, s': State<P>)
    requires Lawful(w.g) && Inv(w, s) && i < |s.drafts| == |s'.drafts|
    requires s' == SetDraft(s, i, s'.drafts[i].status, s'.drafts[i].verification,
                            s'.drafts[i].proof).(posts := s'.posts)
    requires forall j :: 0 <= j < |s'.posts| ==> s'.posts[j].draft < |s.drafts|
    ensures Inv(w, s')
  {
    QuietStep(w, s, s');
  }

  lemma {:induction false} RunInv<P(!new)>(w: World<P>, actions: seq<Action>)
    requires Lawful(w.g)
    ensures Inv(w, Run(w, Initial(w), actions))
    decreases |actions|
  {
    if actions == [] {
      InitialInv(w);
    } else {
      var before := actions[..|actions| - 1];
      RunInv(w, before);
      NextInv(w, Run(w, Initial(w), before), actions[|actions| - 1]);
    }
  }

  // ---------- the theorems ----------

  /** Whatever interleaves: every commitment opens to its account's balance and randomness, balances are
      nonnegative and safe and add up to the supply, randomness cancels, and the published commitments
      add up to the published supply commitment. */
  lemma LedgerSafety<P(!new)>(w: World<P>, actions: seq<Action>)
    requires Lawful(w.g)
    ensures var s := Run(w, Initial(w), actions);
            && Sound(w.g, s)
            && SumOf(w.g, Commitments(s.accounts)) == s.totalSupplyCommitment
            && forall i :: 0 <= i < |s.accounts| ==> 0 <= s.accounts[i].balance <= MAX_SAFE
  {
    RunInv(w, actions);
    SoundConsequences(w.g, Run(w, Initial(w), actions));
  }

  /** The batch that a post settles, in whatever state it finds, is exactly what `build` computes from the
      accounts it is applied to, with the contract unpaused and no member frozen at that instant; it moves
      the payer's and the recipients' balances by the requested amounts and nobody else's. */
  lemma SettlementIsExact<P(!new)>(w: World<P>, actions: seq<Action>, n: nat, id: int)
    requires Lawful(w.g) && 1 <= id <= NUM_PARTIES
    ensures var s := Run(w, Initial(w), actions);
            var s' := Next(w, s, ResumePost(n));
            |s'.settled| > |s.settled| ==>
              && |s'.settled| == |s.settled| + 1 && s'.epoch == s.epoch + 1
              && var b := s'.settled[|s.settled|];
                 && Build(w, s, InputOf(b)) == Ok(b)
                 && !s.paused && (forall i :: 0 <= i < |b.accountIds| ==> b.accountIds[i] !in s.frozen)
                 && |s.accounts| == |s'.accounts| == NUM_PARTIES
                 && s'.accounts[id - 1].balance
                    == s.accounts[id - 1].balance + if id == b.payerId then -b.amount else AmountFor(b.recipients, id)
  {
    hide Inv, CanSettle, Settle, Build, SetDraft;
    RunInv(w, actions);
    var s := Run(w, Initial(w), actions);
    var s' := Next(w, s, ResumePost(n));
    if |s'.settled| > |s.settled| {
      var idle := s.(posts := s.posts[n := s.posts[n].(done := true)]);
      ResumesToSettle(w, s, n);
      SettlesExactly(w, idle, id);
      BuildIgnoresPosts(w, s, idle.posts, InputOf(s'.settled[|s.settled|]));
    }
  }

  /** Only the last resumption of a post adds to the settled batches, and only by settling. */
  lemma ResumesToSettle<P(!new)>(w: World<P>, s: State<P>, n: nat)
    requires Lawful(w.g) && Inv(w, s) && |ResumePostStep(w, s, n).settled| > |s.settled|
    ensures n < |s.posts|
    ensures var idle := s.(posts := s.posts[n := s.posts[n].(done := true)]);
            Inv(w, idle) && CanSettle(w, idle) && ResumePostStep(w, s, n) == Settle(w, idle)
  {
    hide CanSettle, Settle, Sound, DraftOk, History;
    QuietStep(w, s, s.(posts := s.posts[n := s.posts[n].(done := true)]));
  }

  lemma BuildIgnoresPosts<P(!new)>(w: World<P>, s: State<P>, posts: seq<Post>, input: PaymentInput)
    requires w.g.order > 0
    ensures Build(w, s.(posts := posts), input) == Build(w, s, input)
  {
    hide BatchFor, Sort;
  }

  lemma SettlesExactly<P(!new)>(w: World<P>, s: State<P>, id: int)
    requires Lawful(w.g) && Inv(w, s) && CanSettle(w, s) && 1 <= id <= NUM_PARTIES
    ensures var s' := Settle(w, s);
            && |s'.settled| == |s.settled| + 1 && s'.epoch == s.epoch + 1
            && var b := s'.settled[|s.settled|];
               && Build(w, s, InputOf(b)) == Ok(b)
               && !s.paused && (forall i :: 0 <= i < |b.accountIds| ==> b.accountIds[i] !in s.frozen)
               && |s.accounts| == |s'.accounts| == NUM_PARTIES
               && s'.accounts[id - 1].balance
                  == s.accounts[id - 1].balance + if id == b.payerId then -b.amount else AmountFor(b.recipients, id)
  {
    hide Build, RowOpens, SumOf, Deltas, Debits, SumValues, BindingOf, ApplyRows, Rows, Signals, RowFor, OthersR,
         GoodRequest;
    SettleInv(w, s);
    var b := s.drafts[s.current.value].batch;
    assert DraftOk(w, s, s.drafts[s.current.value]);
    ExactRebuilds(w, s, b);
    BatchBalances(w, s.accounts, s.epoch, b.k, b.payerId, b.accountIds, b.recipients, id);
  }

  /** No batch settles twice: settlement epochs strictly increase, and settled nullifiers are distinct. */
  lemma SettledOnce<P(!new)>(w: World<P>, actions: seq<Action>, i: nat, j: nat)
    requires Lawful(w.g) && i < j < |Run(w, Initial(w), actions).settled|
    ensures var s := Run(w, Initial(w), actions);
            s.settled[i].epoch < s.settled[j].epoch < s.epoch && s.settled[i].nullifier != s.settled[j].nullifier
  {
    RunInv(w, actions);
  }

  /** The epoch alone already keeps nullifiers fresh: in every reachable state the consumed-nullifier check
      of `settle` cannot be the one that rejects a validated, proved draft. */
  lemma NullifierCheckRedundant<P(!new)>(w: World<P>, actions: seq<Action>)
    requires Lawful(w.g)
    ensures var s := Run(w, Initial(w), actions);
            CanSettle(w, s) <==>
              s.current.Some? && s.current.value < |s.drafts|
              && var d := s.drafts[s.current.value];
                 Validates(w, s, d.batch) && d.proof == Some(BindingOf(d.batch))
  {
    RunInv(w, actions);
    var s := Run(w, Initial(w), actions);
    if s.current.Some? {
      assert DraftOk(w, s, s.drafts[s.current.value]);
    }
  }

  /** Two posts of one draft, both about to settle: the first confirms it, the second fails and puts the
      draft's status back to proved, although the payment stands and is settled only once. */
  lemma {:induction false} SecondPostResetsStatus<P(!new)>(w: World<P>, s: State<P>, n: nat, m: nat)
    requires w.g.order > 0
    requires n < |s.posts| && m < |s.posts| && n != m && !s.posts[n].done && !s.posts[m].done
    requires s.posts[n].stage == 6 && s.posts[m].stage == 6
    requires s.current == Some(s.posts[n].draft) && s.posts[m].draft == s.posts[n].draft && CanSettle(w, s)
    ensures var i := s.posts[n].draft;
            var s1 := Next(w, s, ResumePost(n));
            var s2 := Next(w, s1, ResumePost(m));
            && |s1.drafts| == |s2.drafts| == |s.drafts|
            && s1.drafts[i].status == Confirmed && s2.drafts[i].status == Proved
            && s1.settled == s2.settled == s.settled + [s.drafts[i].batch] && s1.accounts == s2.accounts
  {
    var idle := s.(posts := s.posts[n := s.posts[n].(done := true)]);
    SettleOutdates(w, idle);
  }

  /** A settlement moves the epoch past the draft it applied, so that draft cannot settle again. */
  lemma SettleOutdates<P(!new)>(w: World<P>, s: State<P>)
    requires w.g.order > 0 && CanSettle(w, s)
    ensures Settle(w, s).current == s.current && !CanSettle(w, Settle(w, s))
    ensures forall posts :: !CanSettle(w, Settle(w, s).(posts := posts))
  {
    assert s.drafts[s.current.value].batch.epoch == s.epoch;
  }
}
