/** What a running post can and cannot do to drafts: it settles whatever draft is current, and its own draft's
    status can change long after that draft was confirmed. */
module InstitutionalPosts {
  import opened Wrappers
  import opened Group
  import opened Institutional
  import opened InstitutionalLedger
  import opened InstitutionalRuns
  import opened InstitutionalLiveness

  // ---------- confirmed drafts ----------

  /** A confirmed draft was settled in an earlier epoch, and no post is past its seventh yield. */
  ghost predicate Past<P>(s: State<P>) {
    && (forall i :: 0 <= i < |s.drafts| && s.drafts[i].status == Confirmed ==>
          s.drafts[i].batch.epoch < s.epoch && s.drafts[i].batch in s.settled)
    && (forall n :: 0 <= n < |s.posts| ==> s.posts[n].stage <= 6 && s.posts[n].draft < |s.drafts|)
    && (s.current.Some? ==> s.current.value < |s.drafts|)
  }

  lemma PastResume<P(!new)>(w: World<P>, s: State<P>, n: nat)
    requires w.g.order > 0 && Past(s)
    ensures Past(Next(w, s, ResumePost(n)))
  {
    hide CanSettle, Settle, BindingOf;
    if n < |s.posts| && !s.posts[n].done && s.posts[n].stage >= 6 {
      var idle := s.(posts := s.posts[n := s.posts[n].(done := true)]);
      if CanSettle(w, idle) {
        SettlesCurrent(w, idle);
        SettlesItsEpoch(w, idle);
      }
    }
  }

  lemma SettlesItsEpoch<P(!new)>(w: World<P>, s: State<P>)
    requires w.g.order > 0 && CanSettle(w, s)
    ensures s.drafts[s.current.value].batch.epoch == s.epoch
  {
  }

  lemma ProvesItsEpoch<P(!new)>(w: World<P>, s: State<P>, b: Batch<P>)
    requires w.g.order > 0 && CanProve(w, s, b)
    ensures b.epoch == s.epoch
  {
  }

  lemma PastNext<P(!new)>(w: World<P>, s: State<P>, a: Action)
    requires w.g.order > 0 && Past(s)
    ensures Past(Next(w, s, a))
  {
    hide CanProve, CanSettle, Build, BindingOf, MintError;
    match a
    case ResumePost(n) => PastResume(w, s, n);
    case _ =>
  }

  lemma {:induction false} RunPast<P(!new)>(w: World<P>, actions: seq<Action>)
    requires w.g.order > 0
    ensures Past(Run(w, Initial(w), actions))
    decreases |actions|
  {
    hide Past, Next;
    if actions == [] {
      InitialPast(w);
    } else {
      RunPast(w, actions[..|actions| - 1]);
      PastNext(w, Run(w, Initial(w), actions[..|actions| - 1]), actions[|actions| - 1]);
    }
  }

  lemma InitialPast<P(!new)>(w: World<P>)
    requires w.g.order > 0
    ensures Past(Run(w, Initial(w), []))
  {
  }

  /** The step is a resumption of an unfinished post of draft i that rewrites the draft's status: its first one,
      or a last one that finds nothing to settle. */
  predicate Disturbs<P(==)>(w: World<P>, s: State<P>, i: nat, a: Action)
    requires w.g.order > 0
  {
    a.ResumePost? && a.post < |s.posts| && !s.posts[a.post].done && s.posts[a.post].draft == i
    && (s.posts[a.post].stage == 0 || (s.posts[a.post].stage >= 6 && !CanSettle(w, s)))
  }

  /** A confirmed draft keeps its status in exactly the steps that do not disturb it. */
  lemma ConfirmedSurvives<P(!new)>(w: World<P>, s: State<P>, i: nat, a: Action)
    requires w.g.order > 0 && Past(s) && i < |s.drafts| && s.drafts[i].status == Confirmed
    ensures i < |Next(w, s, a).drafts|
    ensures Next(w, s, a).drafts[i].status == Confirmed <==> !Disturbs(w, s, i, a)
  {
    hide CanProve, CanSettle, Settle, Build, BindingOf, MintError;
    match a
    case ResumePost(n) => ConfirmedResume(w, s, i, n);
    case Prove => ConfirmedNotProvable(w, s, i);
    case StartPost => ConfirmedNotProvable(w, s, i);
    case _ =>
  }

  lemma ConfirmedNotProvable<P(!new)>(w: World<P>, s: State<P>, i: nat)
    requires w.g.order > 0 && Past(s) && i < |s.drafts| && s.drafts[i].status == Confirmed
    ensures !CanProve(w, s, s.drafts[i].batch)
  {
    hide CanProve;
    if CanProve(w, s, s.drafts[i].batch) {
      ProvesItsEpoch(w, s, s.drafts[i].batch);
    }
  }

  lemma ConfirmedResume<P(!new)>(w: World<P>, s: State<P>, i: nat, n: nat)
    requires w.g.order > 0 && Past(s) && i < |s.drafts| && s.drafts[i].status == Confirmed
    ensures i < |Next(w, s, ResumePost(n)).drafts|
    ensures Next(w, s, ResumePost(n)).drafts[i].status == Confirmed <==> !Disturbs(w, s, i, ResumePost(n))
  {
    hide CanSettle, Settle, BindingOf;
    if n < |s.posts| && !s.posts[n].done && s.posts[n].stage >= 6 {
      var idle := s.(posts := s.posts[n := s.posts[n].(done := true)]);
      PostsDoNotMatter(w, s, idle.posts);
      if CanSettle(w, idle) {
        SettlesCurrent(w, idle);
      }
    }
  }

  /** Every post of draft i has finished. */
  ghost predicate Released<P>(s: State<P>, i: nat) {
    forall n :: 0 <= n < |s.posts| && s.posts[n].draft == i ==> s.posts[n].done
  }

  lemma ReleasedStays<P(!new)>(w: World<P>, s: State<P>, i: nat, a: Action)
    requires w.g.order > 0 && Past(s) && i < |s.drafts| && s.drafts[i].status == Confirmed && Released(s, i)
    ensures var s' := Next(w, s, a);
            Past(s') && i < |s'.drafts| && s'.drafts[i].status == Confirmed && Released(s', i)
  {
    hide CanProve, CanSettle, Settle, Build, BindingOf, MintError, Disturbs, Past;
    PastNext(w, s, a);
    ConfirmedSurvives(w, s, i, a);
    assert !Disturbs(w, s, i, a) by { ReleasedUndisturbed(w, s, i, a); }
    match a
    case ResumePost(n) => PostsAfterResume(w, s, n);
    case StartPost => ConfirmedNotProvable(w, s, i);
    case _ =>
  }

  lemma ReleasedUndisturbed<P(!new)>(w: World<P>, s: State<P>, i: nat, a: Action)
    requires w.g.order > 0 && Released(s, i)
    ensures !Disturbs(w, s, i, a)
  {
  }

  /** A resumption touches its own post only, keeps what that post captured, and never reopens it. */
  lemma PostsAfterResume<P(!new)>(w: World<P>, s: State<P>, n: nat)
    requires w.g.order > 0
    ensures var s' := Next(w, s, ResumePost(n));
            && |s'.posts| == |s.posts|
            && (forall m :: 0 <= m < |s.posts| && m != n ==> s'.posts[m] == s.posts[m])
            && (n < |s.posts| ==>
                  s'.posts[n].draft == s.posts[n].draft && (s.posts[n].done ==> s'.posts[n] == s.posts[n]))
  {
    hide CanSettle, Settle, BindingOf;
    if n < |s.posts| && !s.posts[n].done && s.posts[n].stage >= 6 {
      var idle := s.(posts := s.posts[n := s.posts[n].(done := true)]);
      if CanSettle(w, idle) {
        SettlesCurrent(w, idle);
      }
    }
  }

  lemma {:induction false} ReleasedForever<P(!new)>(w: World<P>, s: State<P>, i: nat, more: seq<Action>)
    requires w.g.order > 0 && Past(s) && i < |s.drafts| && s.drafts[i].status == Confirmed && Released(s, i)
    ensures var s' := Run(w, s, more);
            Past(s') && i < |s'.drafts| && s'.drafts[i].status == Confirmed && Released(s', i)
    decreases |more|
  {
    hide Next, Past, Released;
    if more != [] {
      var m := |more| - 1;
      ReleasedForever(w, s, i, more[..m]);
      ReleasedStays(w, Run(w, s, more[..m]), i, more[m]);
    }
  }

  /** An unfinished post can always take its draft's status away again: with no current draft its last
      resumption fails. */
  lemma {:induction false} UnfinishedDisturbs<P(!new)>(w: World<P>, s: State<P>, i: nat, n: nat)
      returns (more: seq<Action>)
    requires w.g.order > 0 && Past(s) && i < |s.drafts| && s.current.None?
    requires n < |s.posts| && s.posts[n].draft == i && !s.posts[n].done
    ensures i < |Run(w, s, more).drafts| && Run(w, s, more).drafts[i].status != Confirmed
    decreases 6 - s.posts[n].stage
  {
    hide Settle, BindingOf, Validates;
    var s' := Next(w, s, ResumePost(n));
    if s.posts[n].stage == 0 || s.posts[n].stage == 6 {
      more := [ResumePost(n)];
    } else {
      PastNext(w, s, ResumePost(n));
      var rest := UnfinishedDisturbs(w, s', i, n);
      more := [ResumePost(n)] + rest;
      RunAppend(w, s, [ResumePost(n)], rest);
    }
  }

  /** A confirmed draft stays confirmed in every continuation exactly when every post of it has finished. */
  lemma {:induction false} StaysConfirmedIff<P(!new)>(w: World<P>, actions: seq<Action>, i: nat)
    requires w.g.order > 0
    requires var s := Run(w, Initial(w), actions); i < |s.drafts| && s.drafts[i].status == Confirmed
    ensures var s := Run(w, Initial(w), actions);
            Released(s, i) <==>
              forall more :: i < |Run(w, s, more).drafts| && Run(w, s, more).drafts[i].status == Confirmed
  {
    hide Next, Past;
    var s := Run(w, Initial(w), actions);
    RunPast(w, actions);
    if Released(s, i) {
      forall more ensures i < |Run(w, s, more).drafts| && Run(w, s, more).drafts[i].status == Confirmed {
        ReleasedForever(w, s, i, more);
      }
    } else {
      var n: nat :| n < |s.posts| && s.posts[n].draft == i && !s.posts[n].done;
      var s1 := Next(w, s, EditPayment);
      PastNext(w, s, EditPayment);
      Dropped(w, s);
      var rest := UnfinishedDisturbs(w, s1, i, n);
      RunAppend(w, s, [EditPayment], rest);
    }
  }

  lemma Dropped<P(!new)>(w: World<P>, s: State<P>)
    requires w.g.order > 0
    ensures Next(w, s, EditPayment) == s.(current := None)
  {
  }

  // ---------- two posts of one draft ----------

  /** Submitting a request twice and resuming both posts six times each. */
  function TwicePosted(input: PaymentInput, n: nat): seq<Action> {
    Submission(input) + [StartPost] + Again(n, 6) + Again(n + 1, 6)
  }

  /** From every reachable state, an accepted request that is posted twice is confirmed by the first post's last
      resumption, and the second one's puts its status back to proved; the payment stands and is applied once. */
  lemma {:induction false} ConfirmedThenReset<P(!new)>(w: World<P>, actions: seq<Action>, input: PaymentInput)
    requires Lawful(w.g) && Build(w, Run(w, Initial(w), actions), input).Ok?
    ensures var s0 := Run(w, Initial(w), actions);
            var i, n := |s0.drafts|, |s0.posts|;
            var s1 := Run(w, Initial(w), actions + TwicePosted(input, n) + [ResumePost(n)]);
            var s2 := Run(w, Initial(w), actions + TwicePosted(input, n) + [ResumePost(n), ResumePost(n + 1)]);
            && i < |s1.drafts| == |s2.drafts|
            && s1.drafts[i].status == Confirmed && s2.drafts[i].status == Proved
            && s1.settled == s2.settled == s0.settled + [Build(w, s0, input).value] && s1.accounts == s2.accounts
  {
    hide Next, Build, Sound, Drafts, History, TwicePosted, Underway, CanSettle;
    RunInv(w, actions);
    var s0 := Run(w, Initial(w), actions);
    var b, i, n := Build(w, s0, input).value, |s0.drafts|, |s0.posts|;
    var s := Run(w, s0, TwicePosted(input, n));
    BothWait(w, s0, input);
    RunAppend(w, Initial(w), actions, TwicePosted(input, n));
    var all := actions + TwicePosted(input, n);
    RunAppend(w, Initial(w), all, [ResumePost(n)]);
    RunAppend(w, Initial(w), all + [ResumePost(n)], [ResumePost(n + 1)]);
    assert all + [ResumePost(n)] + [ResumePost(n + 1)] == all + [ResumePost(n), ResumePost(n + 1)];
    SecondPostResetsStatus(w, s, n, n + 1);
  }

  lemma {:induction false} BothWait<P(!new)>(w: World<P>, s0: State<P>, input: PaymentInput)
    requires Lawful(w.g) && Inv(w, s0) && Build(w, s0, input).Ok?
    ensures var b, i, n := Build(w, s0, input).value, |s0.drafts|, |s0.posts|;
            var s := Run(w, s0, TwicePosted(input, n));
            && Undisturbed(s0, s, b, i) && CanSettle(w, s) && |s.posts| == n + 2
            && s.posts[n] == Post(i, 6, false) && s.posts[n + 1] == Post(i, 6, false)
  {
    hide Next, Build, Sound, Drafts, History, CanSettle, CanProve, BindingOf, Submission, Again;
    var b, i, n := Build(w, s0, input).value, |s0.drafts|, |s0.posts|;
    Begins(w, s0, input);
    var s1 := Run(w, s0, Submission(input));
    StillProvable(w, s0, s1, input, i);
    Posts(w, s0, s1, b, i);
    RunAppend(w, s0, Submission(input), [StartPost]);
    var s2 := Run(w, s0, Submission(input) + [StartPost]);
    AllTicks(w, s0, s2, b, i, i, n, 0, 6);
    RunAppend(w, s0, Submission(input) + [StartPost], Again(n, 6));
    var s3 := Run(w, s0, Submission(input) + [StartPost] + Again(n, 6));
    AllTicks(w, s0, s3, b, i, i, n + 1, 0, 6);
    RunAppend(w, s0, Submission(input) + [StartPost] + Again(n, 6), Again(n + 1, 6));
    RunKeepsInv(w, s0, TwicePosted(input, n));
    Ready(w, s0, Run(w, s0, TwicePosted(input, n)), input, i);
  }

  // ---------- a post settles the current draft ----------

  /** The step confirms draft j. */
  ghost predicate Settles<P>(s: State<P>, s': State<P>, j: nat) {
    j < |s.drafts| && j < |s'.drafts| && s.drafts[j].status != Confirmed && s'.drafts[j].status == Confirmed
  }

  /** A resumption that settles confirms the current draft and no other, so it settles the draft its post captured
      exactly when that draft is still the current one. */
  lemma {:induction false} SettlesCaptured<P(!new)>(w: World<P>, actions: seq<Action>, n: nat)
    requires w.g.order > 0
    ensures var s := Run(w, Initial(w), actions);
            var s' := Next(w, s, ResumePost(n));
            |s'.settled| > |s.settled| ==>
              && n < |s.posts| && HasDraft(s) && s'.settled == s.settled + [s.drafts[s.current.value].batch]
              && (forall j :: Settles(s, s', j) <==> j == s.current.value)
              && (Settles(s, s', s.posts[n].draft) <==> s.current == Some(s.posts[n].draft))
  {
    hide CanSettle, Settle, BindingOf;
    var s := Run(w, Initial(w), actions);
    RunPast(w, actions);
    if |Next(w, s, ResumePost(n)).settled| > |s.settled| {
      var idle := s.(posts := s.posts[n := s.posts[n].(done := true)]);
      SettlesCurrent(w, idle);
      SettlesItsEpoch(w, idle);
    }
  }

  /** Request a is posted, then dropped, and request b is calculated and proved. */
  function Replaced(a: PaymentInput, b: PaymentInput): seq<Action> {
    Submission(a) + [EditPayment] + [Calculate(b), Prove]
  }

  /** From every reachable state, with two accepted requests: the post of the first one settles the second one,
      which was never posted, while the first one stays unsettled, shown as "verifying". */
  lemma {:induction false} OtherDraftSettles<P(!new)>(w: World<P>, actions: seq<Action>, a: PaymentInput,
                                                      b: PaymentInput)
    requires Lawful(w.g)
    requires var s0 := Run(w, Initial(w), actions); Build(w, s0, a).Ok? && Build(w, s0, b).Ok?
    ensures var s0 := Run(w, Initial(w), actions);
            var i, n := |s0.drafts|, |s0.posts|;
            var s := Run(w, Initial(w), actions + Replaced(a, b) + Again(n, 7));
            && |s.drafts| == i + 2 && s.drafts[i].status == Verifying && s.drafts[i + 1].status == Confirmed
            && s.settled == s0.settled + [Build(w, s0, b).value]
            && (forall m :: 0 <= m < |s.posts| ==> s.posts[m].draft != i + 1)
  {
    hide Next, Build, Sound, History, Replaced, Underway, Again, DraftOk;
    RunInv(w, actions);
    var s0 := Run(w, Initial(w), actions);
    var i, n := |s0.drafts|, |s0.posts|;
    RunAppend(w, Initial(w), actions, Replaced(a, b));
    RunAppend(w, Initial(w), actions + Replaced(a, b), Again(n, 7));
    var s := Run(w, s0, Replaced(a, b));
    ReplacedWaits(w, s0, a, b);
    AllTicks(w, s0, s, Build(w, s0, b).value, i + 1, i, n, 0, 6);
    RunKeepsInv(w, s0, Replaced(a, b));
    RunKeepsInv(w, s, Again(n, 6));
    RunAgain(w, s, n, 7);
    Arrives(w, s0, Run(w, s, Again(n, 6)), b, i + 1, i, n);
  }

  lemma {:induction false} ReplacedWaits<P(!new)>(w: World<P>, s0: State<P>, a: PaymentInput, b: PaymentInput)
    requires Lawful(w.g) && Inv(w, s0) && Build(w, s0, a).Ok? && Build(w, s0, b).Ok?
    ensures var i, n := |s0.drafts|, |s0.posts|;
            var s := Run(w, s0, Replaced(a, b));
            && Underway(s0, s, Build(w, s0, b).value, i + 1, i, n, 0)
            && |s.drafts| == i + 2 && s.posts == s0.posts + [Post(i, 0, false)]
  {
    hide Next, Build, Sound, Drafts, History, Submission, BindingOf, CanProve;
    var i, n := |s0.drafts|, |s0.posts|;
    Begins(w, s0, a);
    var s1 := Run(w, s0, Submission(a));
    DraftsAfterSubmission(w, s0, a);
    var s2 := Next(w, s1, EditPayment);
    Dropped(w, s1);
    NextInv(w, s1, EditPayment);
    RunAppend(w, s0, Submission(a), [EditPayment]);
    SameLedgerBuilds(w, s0, s2, b);
    Prepared(w, s2, b);
    RunAppend(w, s0, Submission(a) + [EditPayment], [Calculate(b), Prove]);
    DraftsAfterProof(w, s2, b);
  }

  lemma DraftsAfterProof<P(!new)>(w: World<P>, s: State<P>, input: PaymentInput)
    requires Lawful(w.g) && Build(w, s, input).Ok?
    ensures |Run(w, s, [Calculate(input), Prove]).drafts| == |s.drafts| + 1
  {
    hide Build, CanProve, BindingOf;
    RunProved(w, s, input);
  }

  lemma DraftsAfterSubmission<P(!new)>(w: World<P>, s: State<P>, input: PaymentInput)
    requires Lawful(w.g) && Build(w, s, input).Ok?
    ensures |Run(w, s, Submission(input)).drafts| == |s.drafts| + 1
  {
    hide Build, CanProve, BindingOf;
    DraftsAfterProof(w, s, input);
    RunSubmission(w, s, input);
  }

  lemma SameLedgerBuilds<P(!new)>(w: World<P>, s0: State<P>, s: State<P>, input: PaymentInput)
    requires w.g.order > 0 && s.accounts == s0.accounts && s.epoch == s0.epoch && s.channels == s0.channels
    requires s.paused == s0.paused && s.frozen == s0.frozen
    ensures Build(w, s, input) == Build(w, s0, input)
  {
  }

  // ---------- which drafts can settle without being posted ----------

  /** Draft i is current, computed for this epoch, and some post has not finished. */
  ghost predicate MaySettle<P>(s: State<P>, i: nat) {
    && s.current == Some(i) && i < |s.drafts| && s.drafts[i].batch.epoch == s.epoch
    && exists n :: 0 <= n < |s.posts| && !s.posts[n].done
  }

  predicate PostsNothing(more: seq<Action>) {
    forall k :: 0 <= k < |more| ==> more[k] != StartPost
  }

  /** A draft from the past or present, neither confirmed nor able to settle. */
  ghost predicate Stranded<P>(s: State<P>, i: nat) {
    && Past(s) && i < |s.drafts| && s.drafts[i].status != Confirmed && s.drafts[i].batch.epoch <= s.epoch
    && !MaySettle(s, i)
  }

  lemma StrandedNext<P(!new)>(w: World<P>, s: State<P>, i: nat, a: Action)
    requires w.g.order > 0 && Stranded(s, i) && a != StartPost
    ensures Stranded(Next(w, s, a), i)
  {
    hide CanProve, CanSettle, Settle, Build, BindingOf, MintError, Past;
    PastNext(w, s, a);
    match a
    case ResumePost(n) => StrandedResume(w, s, i, n);
    case _ =>
  }

  lemma StrandedResume<P(!new)>(w: World<P>, s: State<P>, i: nat, n: nat)
    requires w.g.order > 0 && Stranded(s, i)
    ensures Stranded(Next(w, s, ResumePost(n)), i)
  {
    hide CanSettle, Settle, BindingOf, Past;
    PastNext(w, s, ResumePost(n));
    PostsAfterResume(w, s, n);
    if n < |s.posts| && !s.posts[n].done && s.posts[n].stage >= 6 {
      var idle := s.(posts := s.posts[n := s.posts[n].(done := true)]);
      if CanSettle(w, idle) {
        SettlesCurrent(w, idle);
        SettlesItsEpoch(w, idle);
      }
    }
  }

  lemma {:induction false} StrandedRun<P(!new)>(w: World<P>, s: State<P>, i: nat, more: seq<Action>)
    requires w.g.order > 0 && Stranded(s, i) && PostsNothing(more)
    ensures Stranded(Run(w, s, more), i)
    decreases |more|
  {
    hide Next, Stranded;
    if more != [] {
      StrandedRun(w, s, i, more[..|more| - 1]);
      StrandedNext(w, Run(w, s, more[..|more| - 1]), i, more[|more| - 1]);
    }
  }

  /** Unfreezing every listed account. */
  function Thaw(ids: seq<int>): (r: seq<Action>)
    ensures PostsNothing(r)
  {
    if ids == [] then [] else Thaw(ids[..|ids| - 1]) + [SetFrozen(true, ids[|ids| - 1], false)]
  }

  lemma {:induction false} ThawRun<P(!new)>(w: World<P>, s: State<P>, ids: seq<int>)
    requires w.g.order > 0 && forall k :: 0 <= k < |ids| ==> Registered(s.accounts, ids[k])
    ensures var s' := Run(w, s, Thaw(ids));
            s' == s.(frozen := s'.frozen) && forall k :: 0 <= k < |ids| ==> ids[k] !in s'.frozen
    decreases |ids|
  {
    if ids == [] {
      assert Thaw(ids) == [];
    } else {
      var m := |ids| - 1;
      ThawRun(w, s, ids[..m]);
      assert Thaw(ids)[..|Thaw(ids)| - 1] == Thaw(ids[..m]);
      var before := Run(w, s, Thaw(ids[..m]));
      assert Run(w, s, Thaw(ids)) == Next(w, before, SetFrozen(true, ids[m], false));
      forall k | 0 <= k < |ids| ensures ids[k] !in Run(w, s, Thaw(ids)).frozen {
        if k < m {
          assert ids[..m][k] == ids[k];
        }
      }
    }
  }

  /** Unpausing and unfreezing the members, which only touches the pause flag and the freezes. */
  function Reopen(ids: seq<int>): seq<Action> {
    [SetPaused(true, false)] + Thaw(ids)
  }

  lemma {:induction false} ReopenRun<P(!new)>(w: World<P>, s: State<P>, ids: seq<int>)
    requires w.g.order > 0 && forall k :: 0 <= k < |ids| ==> Registered(s.accounts, ids[k])
    ensures var s' := Run(w, s, Reopen(ids));
            s' == s.(paused := false, frozen := s'.frozen) && Allowed(s', ids)
  {
    hide Thaw, Next;
    var open := s.(paused := false);
    assert Next(w, s, SetPaused(true, false)) == open by { Unpauses(w, s); }
    ThawRun(w, open, ids);
    RunAppend(w, s, [SetPaused(true, false)], Thaw(ids));
  }

  lemma Unpauses<P(!new)>(w: World<P>, s: State<P>)
    requires w.g.order > 0
    ensures Next(w, s, SetPaused(true, false)) == s.(paused := false)
  {
  }

  /** A draft of this epoch whose members are allowed is rebuilt identically. */
  lemma {:induction false} Rebuilt<P(!new)>(w: World<P>, s: State<P>, i: nat)
    requires Lawful(w.g) && Inv(w, s) && i < |s.drafts| && s.drafts[i].batch.epoch == s.epoch
    requires Allowed(s, s.drafts[i].batch.accountIds)
    ensures Build(w, s, InputOf(s.drafts[i].batch)) == Ok(s.drafts[i].batch)
  {
    hide Build, Sound, History, Allowed, Exact;
    assert DraftOk(w, s, s.drafts[i]);
    ExactRebuilds(w, s, s.drafts[i].batch);
  }

  lemma MembersRegistered<P(!new)>(w: World<P>, s: State<P>, i: nat)
    requires w.g.order > 0 && Drafts(w, s) && i < |s.drafts| && s.drafts[i].batch.epoch == s.epoch
    ensures var ids := s.drafts[i].batch.accountIds;
            forall k :: 0 <= k < |ids| ==> Registered(s.accounts, ids[k])
  {
    hide BatchFor;
    assert DraftOk(w, s, s.drafts[i]);
  }

  /** Reopening and proving makes a current draft of this epoch ready. */
  lemma {:induction false} Revived<P(!new)>(w: World<P>, s: State<P>, i: nat)
    requires Lawful(w.g) && Inv(w, s) && s.current == Some(i) && i < |s.drafts| && s.drafts[i].batch.epoch == s.epoch
    ensures var b := s.drafts[i].batch;
            var s0 := Run(w, s, Reopen(b.accountIds));
            var s1 := Next(w, s0, Prove);
            && Inv(w, s0) && Build(w, s0, InputOf(b)) == Ok(b) && Undisturbed(s0, s1, b, i)
            && s1.drafts[i].proof == Some(BindingOf(b)) && s1.posts == s.posts && |s1.drafts| == |s.drafts|
  {
    hide Build, Sound, Drafts, History, BindingOf, CanProve, Next, Reopen, Allowed;
    var b := s.drafts[i].batch;
    MembersRegistered(w, s, i);
    ReopenRun(w, s, b.accountIds);
    var s0 := Run(w, s, Reopen(b.accountIds));
    RunKeepsInv(w, s, Reopen(b.accountIds));
    Rebuilt(w, s0, i);
    StillProvable(w, s0, s0, InputOf(b), i);
    Proves(w, s0, s0, b, i);
    ProveKeepsDraftCount(w, s0);
  }

  lemma ProveKeepsDraftCount<P(!new)>(w: World<P>, s: State<P>)
    requires w.g.order > 0
    ensures |Next(w, s, Prove).drafts| == |s.drafts|
  {
    hide CanProve, BindingOf;
  }

  /** Any unfinished post then settles it. */
  lemma {:induction false} SettledByAny<P(!new)>(w: World<P>, s: State<P>, i: nat, n: nat) returns (more: seq<Action>)
    requires Lawful(w.g) && Inv(w, s) && Past(s)
    requires s.current == Some(i) && i < |s.drafts| && s.drafts[i].batch.epoch == s.epoch
    requires n < |s.posts| && !s.posts[n].done
    ensures PostsNothing(more) && i < |Run(w, s, more).drafts| && Run(w, s, more).drafts[i].status == Confirmed
  {
    hide Next, Build, Sound, Drafts, History, BindingOf, Reopen, Underway, Undisturbed, Again;
    var b, c, k := s.drafts[i].batch, s.posts[n].draft, s.posts[n].stage;
    Revived(w, s, i);
    var s0 := Run(w, s, Reopen(b.accountIds));
    var s1 := Next(w, s0, Prove);
    NextInv(w, s0, Prove);
    Waits(s0, s1, b, i, c, n, k);
    AllTicks(w, s0, s1, b, i, c, n, k, 6 - k);
    var s2 := Run(w, s1, Again(n, 6 - k));
    RunKeepsInv(w, s1, Again(n, 6 - k));
    Arrives(w, s0, s2, InputOf(b), i, c, n);
    more := Reopen(b.accountIds) + [Prove] + Again(n, 6 - k) + [ResumePost(n)];
    RunAppend(w, s, Reopen(b.accountIds), [Prove]);
    RunAppend(w, s, Reopen(b.accountIds) + [Prove], Again(n, 6 - k));
    RunAppend(w, s, Reopen(b.accountIds) + [Prove] + Again(n, 6 - k), [ResumePost(n)]);
    ReopenPostsNothing(b.accountIds);
    AgainPostsNothing(n, 6 - k);
  }

  lemma Waits<P>(s0: State<P>, s: State<P>, b: Batch<P>, i: nat, c: nat, n: nat, k: nat)
    requires Undisturbed(s0, s, b, i) && s.drafts[i].proof == Some(BindingOf(b))
    requires n < |s.posts| && s.posts[n] == Post(c, k, false) && c < |s.drafts|
    ensures Underway(s0, s, b, i, c, n, k)
  {
  }

  lemma ReopenPostsNothing(ids: seq<int>)
    ensures PostsNothing(Reopen(ids))
  {
  }

  lemma {:induction false} AgainPostsNothing(n: nat, k: nat)
    ensures PostsNothing(Again(n, k))
  {
    if k > 0 {
      AgainPostsNothing(n, k - 1);
    }
  }

  /** An unconfirmed draft can still settle without being posted (again) exactly when it is the current draft, was
      computed for the current epoch, and some post, of whatever draft, is unfinished. */
  lemma {:induction false} SettlesUnpostedIff<P(!new)>(w: World<P>, actions: seq<Action>, i: nat)
    requires Lawful(w.g)
    requires var s := Run(w, Initial(w), actions); i < |s.drafts| && s.drafts[i].status != Confirmed
    ensures var s := Run(w, Initial(w), actions);
            MaySettle(s, i) <==>
              exists more :: PostsNothing(more) && i < |Run(w, s, more).drafts|
                  && Run(w, s, more).drafts[i].status == Confirmed
  {
    hide Next, Past, Sound, History;
    var s := Run(w, Initial(w), actions);
    RunPast(w, actions);
    RunInv(w, actions);
    if MaySettle(s, i) {
      var n: nat :| n < |s.posts| && !s.posts[n].done;
      var more := SettledByAny(w, s, i, n);
    } else {
      assert DraftOk(w, s, s.drafts[i]);
      forall more | PostsNothing(more)
        ensures i < |Run(w, s, more).drafts| && Run(w, s, more).drafts[i].status != Confirmed
      {
        StrandedRun(w, s, i, more);
      }
    }
  }
}
