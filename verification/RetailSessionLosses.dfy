/** Payments of the retail session that are mined and then fail: which events lose a note, and what stays lost. */
module RetailSessionLosses {
  import opened RetailSession
  import opened RetailSessionRuns

  // ---------- the losing events ----------

  /** The chain has accepted the transaction of a payment, and the payment ends before it is booked: the transaction
      cannot be read back, or its tags are not relayed. */
  predicate Loses(s: State, a: Action) {
    && a.Advance? && a.index < |s.ops|
    && var op := s.ops[a.index];
    || (op.Proving? && a.event.MinedUnread? && op.input < |s.book.notes|
        && s.book.notes[op.input].id !in s.book.nullified)
    || (op.Tagging? && !a.event.Succeeds?)
  }

  predicate NeverLoses(actions: seq<Action>)
    decreases |actions|
  {
    actions == []
    || (NeverLoses(actions[..|actions| - 1]) && !Loses(Run(actions[..|actions| - 1]), actions[|actions| - 1]))
  }

  lemma LossStep(s: State, a: Action)
    requires Inv(s)
    ensures Loses(s, a) ==> s.ops[a.index].input < |s.book.notes|
    ensures Next(s, a).book.lost
         == s.book.lost + if Loses(s, a) then {s.book.notes[s.ops[a.index].input].id} else {}
  {
    hide KeysOk, BookOk, Accounted, GoodPayment, NoneSufficient, MakeOutputs, AfterPayment, Discover;
    if a.Advance? && a.index < |s.ops| {
      assert s.ops == [s.ops[0]];
    }
  }

  lemma {:induction false} LostIff(actions: seq<Action>)
    ensures Run(actions).book.lost == {} <==> NeverLoses(actions)
    decreases |actions|
  {
    hide Inv, Next, Loses;
    if actions != [] {
      var before := actions[..|actions| - 1];
      LostIff(before);
      RunInv(before);
      LossStep(Run(before), actions[|actions| - 1]);
    }
  }

  /** The local spent flags agree with the chain's nullifiers. */
  ghost predicate Agrees(b: Book) {
    forall i :: 0 <= i < |b.notes| ==> (b.notes[i].spent <==> b.notes[i].id in b.nullified)
  }

  /** The session's books agree with the chain exactly when no step so far lost a note, and no payment is between its
      transaction and its booking right now. */
  lemma {:induction false} AgreesIff(actions: seq<Action>)
    ensures var s := Run(actions);
            Agrees(s.book) <==> NeverLoses(actions) && !(|s.ops| == 1 && s.ops[0].Tagging?)
  {
    hide KeysOk, BookOk;
    RunInv(actions);
    LostIff(actions);
    var s := Run(actions);
    AccountedAgrees(s.book, InFlight(s.book, s.ops));
  }

  lemma AccountedAgrees(b: Book, inFlight: set<nat>)
    requires Accounted(b, inFlight)
    ensures Agrees(b) <==> b.lost == {} && inFlight == {}
  {
    if x :| x in b.lost + inFlight {
      var i :| 0 <= i < |b.notes| && b.notes[i].id == x;
    }
  }

  // ---------- lost notes ----------

  /** The session has discovered every lost note. */
  ghost predicate LostKnown(b: Book) {
    forall i :: 0 <= i < |b.notes| && b.notes[i].id in b.lost ==> b.notes[i].discovered
  }

  lemma LostKnownStep(s: State, a: Action)
    requires Inv(s) && LostKnown(s.book)
    ensures LostKnown(Next(s, a).book)
  {
    hide KeysOk, AllOpen, Holdings, Next, GoodPayment, MakeOutputs;
    var b, b' := s.book, Next(s, a).book;
    NotesGrow(s, a);
    LossStep(s, a);
    assert forall x :: x in b'.lost ==> x <= b.noteSeq;
  }

  lemma {:induction false} RunLostKnown(actions: seq<Action>)
    ensures LostKnown(Run(actions).book)
    decreases |actions|
  {
    hide Inv, Next, LostKnown;
    if actions == [] {
      assert LostKnown(Run([]).book) by { EmptyRun(); NothingLost(); }
    } else {
      var before := actions[..|actions| - 1];
      RunLostKnown(before);
      RunInv(before);
      LostKnownStep(Run(before), actions[|actions| - 1]);
    }
  }

  lemma NothingLost()
    ensures LostKnown(Initial().book)
  {
  }

  /** A lost note stays in the list, lost and unspent, in every continuation. Its owner's session goes on believing it
      spendable, though the chain has nullified it. */
  lemma {:induction false} LostForever(actions: seq<Action>, more: seq<Action>, i: nat)
    requires var b := Run(actions).book; i < |b.notes| && b.notes[i].id in b.lost
    ensures var b, b' := Run(actions).book, Run(actions + more).book;
            && i < |b'.notes| && b'.notes[i].id == b.notes[i].id && b'.notes[i].owner == b.notes[i].owner
            && b'.notes[i].amount == b.notes[i].amount && b'.notes[i].id in b'.lost
            && Spendable(b'.notes[i], b'.notes[i].owner) && b'.notes[i].id in b'.nullified
    decreases |more|
  {
    hide Next, KeysOk, OpOk, Run, SmallestSufficient, Holdings, OpensUnder;
    if more == [] {
      assert actions + more == actions;
    } else {
      var m := |more| - 1;
      LostForever(actions, more[..m], i);
      NotesGrow(Run(actions + more[..m]), more[m]);
      RunExtend(actions + more[..m], more[m]);
      assert actions + more == actions + more[..m] + [more[m]];
    }
    RunInv(actions + more);
    RunLostKnown(actions + more);
  }

  /** From every reached idle state, a payment on a lost note ends with the books as they were, even when every external
      step would succeed. */
  lemma {:induction false} LostNeverPays(actions: seq<Action>, recipient: nat, amount: int, n: nat, changeSalt: int,
                                         paySalt: int)
    requires var s := Run(actions);
             && !s.busy && GoodPayment(s, s.actor, recipient, amount) && (s.actor, recipient) in s.channels
             && SmallestSufficient(s.book.notes, s.actor, amount, n) && s.book.notes[n].id in s.book.lost
    ensures var s, s' := Run(actions), Run(actions + PaymentSteps(recipient, amount, n, changeSalt, paySalt));
            !s'.busy && s'.book == s.book
  {
    hide Run, KeysOk, BookOk, GoodPayment, SmallestSufficient, NoneSufficient;
    var s := Run(actions);
    RunInv(actions);
    assert s.ops == [];
    GoodSender(s, recipient, amount);
    SufficientExists(s, amount, n);
    assert s.book.notes[n].id in s.book.nullified;
    RunSeven(actions, PaymentSteps(recipient, amount, n, changeSalt, paySalt));
    PathToSelection(s, recipient, amount, n, changeSalt, paySalt);
    EndsAfterProof(s, recipient, amount, n, Mined(changeSalt, paySalt));
  }

  /** From selection on, with any answer to the relayed transaction after which the payment cannot go on. */
  lemma EndsAfterProof(s: State, recipient: nat, amount: int, n: nat, e: Event)
    requires 0 <= s.actor && s.ops == [] && SmallestSufficient(s.book.notes, s.actor, amount, n)
    requires n < |s.book.notes| && !NoneSufficient(s.book.notes, s.actor, amount)
    requires e.MinedUnread? || (e.Mined? && s.book.notes[n].id in s.book.nullified)
    ensures var s4 := s.(busy := true, ops := [Selecting(s.actor, recipient, amount)]);
            var s5 := Next(s4, Advance(0, Selected(n)));
            var s' := Next(Next(s5, Advance(0, e)), Advance(0, Succeeds));
            && s5 == s4.(ops := [Proving(s.actor, recipient, amount, n)])
            && s' == s.(busy := false, book := s'.book)
            && s'.book == if s.book.notes[n].id in s.book.nullified then s.book
                          else s.book.(nullified := s.book.nullified + {s.book.notes[n].id},
                                       lost := s.book.lost + {s.book.notes[n].id})
  {
    hide SmallestSufficient, NoneSufficient, RegistrationStep, ChannelStep, ScanStep;
    var s4 := s.(busy := true, ops := [Selecting(s.actor, recipient, amount)]);
    var s5 := Next(s4, Advance(0, Selected(n)));
    assert s5 == s4.(ops := [Proving(s.actor, recipient, amount, n)]);
  }

  /** The run of SomePayment with one answer changed: the transaction is mined, but cannot be read back. */
  lemma {:induction false} SomeLoss() returns (before: seq<Action>, actions: seq<Action>, n: nat)
    ensures actions == before + PaymentSteps(1, 30, n, 0, 0)[5 := Advance(0, MinedUnread)]
    ensures var b, s' := Run(before).book, Run(actions);
            && Agrees(b) && !s'.busy && s'.book.notes == b.notes && !Agrees(s'.book)
            && n < |b.notes| && b.notes[n].id in s'.book.lost && Spendable(b.notes[n], 0)
  {
    hide Run, KeysOk, BookOk, GoodPayment, NoneSufficient;
    before, n := ReadyToPay();
    RunInv(before);
    var s := Run(before);
    assert s.ops == [];
    var steps := PaymentSteps(1, 30, n, 0, 0)[5 := Advance(0, MinedUnread)];
    actions := before + steps;
    RunSeven(before, steps);
    AccountedAgrees(s.book, {});
    PathToSelection(s, 1, 30, n, 0, 0);
    SufficientExists(s, 30, n);
    EndsAfterProof(s, 1, 30, n, MinedUnread);
  }
}
