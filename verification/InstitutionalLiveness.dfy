/** A payment that nothing disturbs goes through. */
module InstitutionalLiveness {
  import opened Wrappers
  import opened Group
  import opened Sorting
  import opened Institutional
  import opened InstitutionalLedger
  import opened InstitutionalPayment
  import opened InstitutionalRuns
  import opened InstitutionalRequests

  /** Draft i is current and proved, post n (of draft c) has passed k yields, and nothing has happened to the
      ledger since `s0`. */
  ghost predicate Underway<P>(s0: State<P>, s: State<P>, b: Batch<P>, i: nat, c: nat, n: nat, k: nat) {
    && Undisturbed(s0, s, b, i)
    && s.drafts[i].proof == Some(BindingOf(b))
    && n < |s.posts| && s.posts[n] == Post(c, k, false) && c < |s.drafts|
  }

  ghost predicate Undisturbed<P>(s0: State<P>, s: State<P>, b: Batch<P>, i: nat) {
    && s.accounts == s0.accounts && s.epoch == s0.epoch && s.channels == s0.channels && s.settled == s0.settled
    && s.paused == s0.paused && s.frozen == s0.frozen
    && s.current == Some(i) && i < |s.drafts| && s.drafts[i].batch == b
  }

  /** Validation and rebuilding look at the ledger, not at drafts or posts. */
  lemma {:induction false} StillProvable<P(!new)>(w: World<P>, s0: State<P>, s: State<P>, input: PaymentInput, i: nat)
    requires Lawful(w.g) && Sound(w.g, s0) && Build(w, s0, input).Ok?
             && Undisturbed(s0, s, Build(w, s0, input).value, i)
    ensures CanProve(w, s, Build(w, s0, input).value)
  {
    var b := Build(w, s0, input).value;
    BuildValidates(w, s0, input);
    BuildIsExact(w, s0, input);
    ExactRebuilds(w, s, b);
  }

  lemma Calculates<P(!new)>(w: World<P>, s0: State<P>, input: PaymentInput)
    requires Lawful(w.g) && Build(w, s0, input).Ok?
    ensures var s := Next(w, s0, Calculate(input));
            Undisturbed(s0, s, Build(w, s0, input).value, |s0.drafts|) && s.posts == s0.posts
            && s.drafts[|s0.drafts|].status == Calculated && s.drafts[|s0.drafts|].proof.None?
  {
    hide Build, Validates;
  }

  lemma Proves<P(!new)>(w: World<P>, s0: State<P>, s: State<P>, b: Batch<P>, i: nat)
    requires Lawful(w.g) && Undisturbed(s0, s, b, i) && CanProve(w, s, b)
    ensures var s' := Next(w, s, Prove);
            Undisturbed(s0, s', b, i) && s'.drafts[i].proof == Some(BindingOf(b)) && s'.posts == s.posts
            && s'.drafts[i].status == Status.Proved
  {
    hide CanProve, BindingOf;
  }

  lemma Posts<P(!new)>(w: World<P>, s0: State<P>, s: State<P>, b: Batch<P>, i: nat)
    requires Lawful(w.g) && Undisturbed(s0, s, b, i) && s.drafts[i].proof == Some(BindingOf(b)) && CanProve(w, s, b)
    ensures Underway(s0, Next(w, s, StartPost), b, i, i, |s.posts|, 0)
    ensures Next(w, s, StartPost).posts == s.posts + [Post(i, 0, false)]
    ensures Next(w, s, StartPost).drafts[i].status == Submitted && Next(w, s, StartPost).drafts[i].verification == 0
  {
    hide CanProve, BindingOf;
  }

  // ---------- sequences of steps ----------

  lemma {:induction false} RunAppend<P(!new)>(w: World<P>, s: State<P>, a: seq<Action>, b: seq<Action>)
    requires w.g.order > 0
    ensures Run(w, s, a + b) == Run(w, Run(w, s, a), b)
    decreases |b|
  {
    if b == [] {
      assert a + b == a;
    } else {
      var m := |b| - 1;
      RunAppend(w, s, a, b[..m]);
      assert (a + b)[..|a + b| - 1] == a + b[..m];
    }
  }

  /** k resumptions of one post. */
  function Again(n: nat, k: nat): (r: seq<Action>)
    ensures |r| == k
  {
    if k == 0 then [] else Again(n, k - 1) + [ResumePost(n)]
  }

  lemma RunAgain<P(!new)>(w: World<P>, s: State<P>, n: nat, k: nat)
    requires w.g.order > 0 && k > 0
    ensures Run(w, s, Again(n, k)) == Next(w, Run(w, s, Again(n, k - 1)), ResumePost(n))
  {
    assert Again(n, k)[..k - 1] == Again(n, k - 1);
  }

  /** Calculating, proving and posting a request. */
  function Submission(input: PaymentInput): seq<Action> {
    [Calculate(input), Prove, StartPost]
  }

  lemma {:induction false} RunProved<P(!new)>(w: World<P>, s: State<P>, input: PaymentInput)
    requires w.g.order > 0
    ensures Run(w, s, [Calculate(input), Prove]) == Next(w, Next(w, s, Calculate(input)), Prove)
  {
    hide Next;
    RunAppend(w, s, [Calculate(input)], [Prove]);
    assert [Calculate(input), Prove] == [Calculate(input)] + [Prove];
  }

  lemma {:induction false} RunSubmission<P(!new)>(w: World<P>, s: State<P>, input: PaymentInput)
    requires w.g.order > 0
    ensures Run(w, s, Submission(input)) == Next(w, Run(w, s, [Calculate(input), Prove]), StartPost)
  {
    hide Next;
    RunAppend(w, s, [Calculate(input), Prove], [StartPost]);
    assert Submission(input) == [Calculate(input), Prove] + [StartPost];
  }

  lemma {:induction false} RunKeepsInv<P(!new)>(w: World<P>, s: State<P>, actions: seq<Action>)
    requires Lawful(w.g) && Inv(w, s)
    ensures Inv(w, Run(w, s, actions))
    decreases |actions|
  {
    hide Inv, Next;
    if actions != [] {
      RunKeepsInv(w, s, actions[..|actions| - 1]);
      NextInv(w, Run(w, s, actions[..|actions| - 1]), actions[|actions| - 1]);
    }
  }

  // ---------- an undisturbed payment ----------

  /** After calculating and proving, the new draft is current and carries a proof of its own binding. */
  lemma {:induction false} Prepared<P(!new)>(w: World<P>, s0: State<P>, input: PaymentInput)
    requires Lawful(w.g) && Inv(w, s0) && Build(w, s0, input).Ok?
    ensures var s, b, i := Run(w, s0, [Calculate(input), Prove]), Build(w, s0, input).value, |s0.drafts|;
            && Inv(w, s) && Undisturbed(s0, s, b, i) && s.posts == s0.posts
            && s.drafts[i].proof == Some(BindingOf(b)) && CanProve(w, s, b)
  {
    hide Next, Build, CanProve, BindingOf, Sound, Drafts, History;
    var b, i := Build(w, s0, input).value, |s0.drafts|;
    RunProved(w, s0, input);
    RunKeepsInv(w, s0, [Calculate(input), Prove]);
    var s1 := Next(w, s0, Calculate(input));
    Calculates(w, s0, input);
    StillProvable(w, s0, s1, input, i);
    Proves(w, s0, s1, b, i);
    StillProvable(w, s0, Next(w, s1, Prove), input, i);
  }

  lemma {:induction false} Begins<P(!new)>(w: World<P>, s0: State<P>, input: PaymentInput)
    requires Lawful(w.g) && Inv(w, s0) && Build(w, s0, input).Ok?
    ensures var s, i := Run(w, s0, Submission(input)), |s0.drafts|;
            && Inv(w, s) && Underway(s0, s, Build(w, s0, input).value, i, i, |s0.posts|, 0)
            && s.posts == s0.posts + [Post(i, 0, false)]
  {
    hide Next, Build, CanProve, BindingOf, Underway, Sound, Drafts, History, Submission;
    Prepared(w, s0, input);
    RunSubmission(w, s0, input);
    RunKeepsInv(w, s0, Submission(input));
    Posts(w, s0, Run(w, s0, [Calculate(input), Prove]), Build(w, s0, input).value, |s0.drafts|);
  }

  /** One undisturbed resumption advances the post and its draft's verification count, and touches no other
      post and no other draft. */
  lemma Ticks<P(!new)>(w: World<P>, s0: State<P>, s: State<P>, b: Batch<P>, i: nat, c: nat, n: nat, k: nat)
    requires Lawful(w.g) && Underway(s0, s, b, i, c, n, k) && k < 6
    ensures var s' := Next(w, s, ResumePost(n));
            && Underway(s0, s', b, i, c, n, k + 1) && s'.drafts[c].verification == k + 1
            && s'.drafts[c].status == (if k == 0 then Verifying else s.drafts[c].status)
            && s'.posts == s.posts[n := Post(c, k + 1, false)]
            && |s'.drafts| == |s.drafts| && (forall j :: 0 <= j < |s.drafts| && j != c ==> s'.drafts[j] == s.drafts[j])
  {
    hide BindingOf;
  }

  /** k resumptions of a fresh post, up to the one that settles. */
  lemma {:induction false} AllTicks<P(!new)>(w: World<P>, s0: State<P>, s: State<P>, b: Batch<P>, i: nat, c: nat,
                                             n: nat, from: nat, k: nat)
    requires Lawful(w.g) && Underway(s0, s, b, i, c, n, from) && from + k <= 6
    ensures var s' := Run(w, s, Again(n, k));
            && Underway(s0, s', b, i, c, n, from + k) && s'.posts == s.posts[n := Post(c, from + k, false)]
            && |s'.drafts| == |s.drafts| && (forall j :: 0 <= j < |s.drafts| && j != c ==> s'.drafts[j] == s.drafts[j])
            && s'.drafts[c].status == (if from == 0 && k > 0 then Verifying else s.drafts[c].status)
  {
    hide Next, Underway;
    assert n < |s.posts| && c < |s.drafts| && s.posts[n] == Post(c, from, false) by { Parts(s0, s, b, i, c, n, from); }
    if k > 0 {
      AllTicks(w, s0, s, b, i, c, n, from, k - 1);
      RunAgain(w, s, n, k);
      Ticks(w, s0, Run(w, s, Again(n, k - 1)), b, i, c, n, from + k - 1);
    }
  }

  lemma Parts<P>(s0: State<P>, s: State<P>, b: Batch<P>, i: nat, c: nat, n: nat, k: nat)
    requires Underway(s0, s, b, i, c, n, k)
    ensures n < |s.posts| && i < |s.drafts| && c < |s.drafts| && s.posts[n] == Post(c, k, false)
    ensures Undisturbed(s0, s, b, i)
  {
  }

  /** A proved current draft whose ledger is undisturbed can settle. */
  lemma {:induction false} Ready<P(!new)>(w: World<P>, s0: State<P>, s: State<P>, input: PaymentInput, i: nat)
    requires Lawful(w.g) && Sound(w.g, s0) && Build(w, s0, input).Ok? && Inv(w, s)
    requires Undisturbed(s0, s, Build(w, s0, input).value, i)
    requires s.drafts[i].proof == Some(BindingOf(Build(w, s0, input).value))
    ensures CanSettle(w, s)
  {
    hide Build, Validates, Exact, BindingOf, Sound, ApplyRows;
    BuildIsExact(w, s0, input);
    StillProvable(w, s0, s, input, i);
    FreshNullifier(w, s, i);
  }

  /** Whether the current draft can settle does not depend on the posts. */
  lemma PostsDoNotMatter<P(!new)>(w: World<P>, s: State<P>, posts: seq<Post>)
    requires w.g.order > 0
    ensures CanSettle(w, s) == CanSettle(w, s.(posts := posts))
  {
    hide BindingOf;
    if HasDraft(s) {
    }
  }

  /** The seventh resumption settles the current draft and touches no other draft. */
  lemma {:induction false} Arrives<P(!new)>(w: World<P>, s0: State<P>, s: State<P>, input: PaymentInput, i: nat, c: nat,
                                            n: nat)
    requires Lawful(w.g) && Sound(w.g, s0) && Build(w, s0, input).Ok? && Inv(w, s)
    requires Underway(s0, s, Build(w, s0, input).value, i, c, n, 6)
    ensures var s' := Next(w, s, ResumePost(n));
            && s'.settled == s0.settled + [Build(w, s0, input).value] && s'.epoch == s0.epoch + 1
            && i < |s'.drafts| && s'.drafts[i].status == Confirmed && s'.posts == s.posts[n := Post(c, 6, true)]
            && |s'.drafts| == |s.drafts| && (forall j :: 0 <= j < |s.drafts| && j != i ==> s'.drafts[j] == s.drafts[j])
  {
    hide Build, CanSettle, BindingOf, Sound, ApplyRows, Drafts, History;
    Ready(w, s0, s, input, i);
    var idle := s.(posts := s.posts[n := s.posts[n].(done := true)]);
    PostsDoNotMatter(w, s, idle.posts);
    SettlesCurrent(w, idle);
  }

  lemma SettlesCurrent<P(!new)>(w: World<P>, s: State<P>)
    requires w.g.order > 0 && CanSettle(w, s)
    ensures var s', i := Settle(w, s), s.current.value;
            && HasDraft(s) && s'.settled == s.settled + [s.drafts[i].batch] && s'.epoch == s.epoch + 1
            && s'.posts == s.posts && s'.current == s.current && |s'.drafts| == |s.drafts|
            && s'.drafts[i] == s.drafts[i].(status := Confirmed)
            && (forall j :: 0 <= j < |s.drafts| && j != i ==> s'.drafts[j] == s.drafts[j])
  {
    hide Validates, BindingOf, ApplyRows;
  }

  lemma FreshNullifier<P(!new)>(w: World<P>, s: State<P>, i: nat)
    requires w.g.order > 0 && Drafts(w, s) && History(s) && i < |s.drafts| && s.drafts[i].batch.epoch == s.epoch
    ensures !NullifierUsed(s, s.drafts[i].batch.nullifier)
  {
    hide Exact;
    assert DraftOk(w, s, s.drafts[i]);
  }

  /** From every reachable state, a request that meets the conditions of construction settles once it is calculated,
      proved, posted and resumed seven times with nothing in between: no later check can reject it. The payer's balance
      falls by the total, each recipient's rises by its own amount, and every other balance stays. */
  lemma {:induction false} PaymentGoesThrough<P(!new)>(w: World<P>, actions: seq<Action>, input: PaymentInput)
    requires Lawful(w.g) && Payable(Run(w, Initial(w), actions), input)
    ensures var s0 := Run(w, Initial(w), actions);
            var s := Run(w, Initial(w), actions + Submission(input) + Again(|s0.posts|, 7));
            && |s.settled| == |s0.settled| + 1 && Carries(w.g, s0, input, s.settled[|s0.settled|])
            && s.epoch == s0.epoch + 1
            && |s0.drafts| < |s.drafts| && s.drafts[|s0.drafts|].status == Confirmed
            && |s.accounts| == |s0.accounts| == NUM_PARTIES
            && forall j :: 0 <= j < NUM_PARTIES ==>
                 Asks(input, j + 1, s.accounts[j].balance - s0.accounts[j].balance)
  {
    hide Next, Build, Underway, Sound, Drafts, History, Submission, Again, Carries, Asks;
    RunInv(w, actions);
    var s0 := Run(w, Initial(w), actions);
    BuildAccepts(w, s0, input);
    BuildCarries(w, s0, input);
    var b, i, n := Build(w, s0, input).value, |s0.drafts|, |s0.posts|;
    Begins(w, s0, input);
    RunAppend(w, Initial(w), actions, Submission(input));
    RunAppend(w, Initial(w), actions + Submission(input), Again(n, 7));
    var s := Run(w, s0, Submission(input));
    AllTicks(w, s0, s, b, i, i, n, 0, 6);
    RunKeepsInv(w, s, Again(n, 6));
    RunAgain(w, s, n, 7);
    var s6 := Run(w, s, Again(n, 6));
    Arrives(w, s0, s6, input, i, i, n);
    RunAppend(w, Initial(w), actions + Submission(input), Again(n, 6));
    assert s6.accounts == s0.accounts && s6.settled == s0.settled by { Parts(s0, s6, b, i, i, n, 6); }
    SettlesAsked(w, actions + Submission(input) + Again(n, 6), n, s0, input, b);
  }

  /** A resumption that settles the batch of a request moves every balance by what the request asks. */
  lemma SettlesAsked<P(!new)>(w: World<P>, actions: seq<Action>, n: nat, s0: State<P>, input: PaymentInput, b: Batch<P>)
    requires Lawful(w.g) && Payable(s0, input) && Carries(w.g, s0, input, b)
    requires Run(w, Initial(w), actions).accounts == s0.accounts
    requires Next(w, Run(w, Initial(w), actions), ResumePost(n)).settled
             == Run(w, Initial(w), actions).settled + [b]
    ensures var s' := Next(w, Run(w, Initial(w), actions), ResumePost(n));
            && |s'.accounts| == |s0.accounts| == NUM_PARTIES
            && forall j :: 0 <= j < NUM_PARTIES ==>
                 Asks(input, j + 1, s'.accounts[j].balance - s0.accounts[j].balance)
  {
    hide Next, Run, Asks, Payable, Carries, Build;
    SettlementIsExact(w, actions, n, 1);
    var s' := Next(w, Run(w, Initial(w), actions), ResumePost(n));
    forall j | 0 <= j < NUM_PARTIES ensures Asks(input, j + 1, s'.accounts[j].balance - s0.accounts[j].balance) {
      SettlementIsExact(w, actions, n, j + 1);
      CarriedAsks(w.g, s0, input, b, j + 1);
    }
  }

  lemma CarriedAsks<P>(g: Group<P>, s: State<P>, input: PaymentInput, b: Batch<P>, id: int)
    requires g.order > 0 && Payable(s, input) && Carries(g, s, input, b)
    ensures Asks(input, id, if id == b.payerId then -b.amount else AmountFor(b.recipients, id))
  {
    hide Asks;
    AsksAmountFor(input, id);
  }

  /** Such requests exist: after the channels and one mint, account 1 can pay account 2. */
  lemma PaymentExists<P(!new)>(w: World<P>)
    requires Lawful(w.g)
    ensures Build(w, Run(w, Initial(w), [EstablishChannels, Fund(true, 1, 10)]),
                  PaymentInput(2, 1, [2, 1], [Recipient(2, 4)])).Ok?
    ensures Payable(Run(w, Initial(w), [EstablishChannels, Fund(true, 1, 10)]),
                    PaymentInput(2, 1, [2, 1], [Recipient(2, 4)]))
  {
    var s0 := Initial(w);
    var s1 := Next(w, s0, EstablishChannels);
    var s2 := Next(w, s1, Fund(true, 1, 10));
    assert [EstablishChannels, Fund(true, 1, 10)][..1] == [EstablishChannels] && [EstablishChannels][..0] == [];
    assert Run(w, s0, [EstablishChannels]) == s1;
    assert Run(w, s0, [EstablishChannels, Fund(true, 1, 10)]) == s2;
    assert Sort([2, 1]) == [1, 2] by {
      assert [2, 1][1..] == [1] && [1][1..] == [];
    }
    var rs := [Recipient(2, 4)];
    assert rs[1..] == [];
    assert RecipientIds(rs) == [2] && TotalAmount(rs) == 4;
    assert s2.accounts[0].balance == 10;
    BuildAccepts(w, s2, PaymentInput(2, 1, [2, 1], rs));
  }
}
