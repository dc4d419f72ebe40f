/** The Retail laws over whole runs. */
module RetailRuns {
  import opened Wrappers
  import opened Merkle
  import opened Retail
  import opened RetailSafety

  /** A segment leaves balanced books, and whatever is left of the operation can resume. */
  ghost predicate SegmentOk(w: World, seg: Segment) {
    && Books(w, seg.s.book) && |seg.s.book.leaves| <= CAPACITY
    && (seg.rest.Some? ==> OpOk(w, seg.s.book, seg.rest.value))
  }

  lemma {:induction false} SumNonnegative(xs: seq<int>)
    requires forall i :: 0 <= i < |xs| ==> xs[i] > 0
    ensures Sum(xs) >= 0
  {
    if xs != [] {
      SumNonnegative(xs[1..]);
    }
  }

  /** The public balance and the mint history matter to conservation only. */
  lemma BooksIgnoreBalance(w: World, b: Book, b': Book)
    requires Aligned(b) && Matched(w, b) && Proven(b)
    requires b' == b.(publicBalance := b'.publicBalance, minted := b'.minted)
    ensures Aligned(b') && Matched(w, b') && Proven(b')
  {
    forall t | 0 <= t < |b'.txs| && b'.txs[t].kind == Payment ensures exists m: nat :: ProvesIn(b', t, m) {
      ProvenGrows(b, b', t);
    }
    forall t | 0 <= t < |b'.txs| && b'.txs[t].nullifier.Some?
      ensures b'.txs[t].input.Some? && Spends(w, b', t, b'.txs[t].input.value)
    {
      assert Spends(w, b, t, b.txs[t].input.value);
    }
    forall n | 0 <= n < |b'.notes| && b'.notes[n].status == Spent
      ensures b'.notes[n].spentBy.Some? && Spends(w, b', b'.notes[n].spentBy.value - 1, n)
    {
      assert Spends(w, b, b.notes[n].spentBy.value - 1, n);
    }
  }

  /** A leafless transaction on its own. */
  lemma AddTxBooks(w: World, b: Book, kind: Kind)
    requires Books(w, b) && (kind == MintCash || kind == ConfigureTags || kind == Scan)
    ensures Books(w, AddTx(b, kind))
  {
    NoticeBooks(w, b, AddTx(b, kind));
    DepositsAppend(b.txs, PlainTx(b, kind));
  }

  lemma MintOk(w: World, s: State, amount: int)
    requires Books(w, s.book) && |s.book.leaves| <= CAPACITY
    ensures SegmentOk(w, BeginMint(s, amount))
  {
    AddTxBooks(w, s.book, MintCash);
    if BeginMint(s, amount) != Fails(s) {
      BooksIgnoreBalance(w, AddTx(s.book, MintCash), BeginMint(s, amount).s.book);
    }
  }

  lemma BooksAligned(w: World, b: Book)
    requires Books(w, b)
    ensures Aligned(b)
  {
  }

  lemma PaymentBeginsOk(w: World, s: State, channelId: Option<nat>, noteId: Option<nat>, amount: int)
    requires Books(w, s.book) && |s.book.leaves| <= CAPACITY
    ensures SegmentOk(w, BeginPayment(w, s, channelId, noteId, amount))
  {
    hide Root, Siblings, Books, Commitments, SelectInput, SelectChannel, Nullifier;
    assert Aligned(s.book) by { hide *; BooksAligned(w, s.book); }
  }

  lemma BeginOk(w: World, s: State, a: Action)
    requires Books(w, s.book) && |s.book.leaves| <= CAPACITY
    ensures SegmentOk(w, Begin(w, s, a))
  {
    match a
    case StartMint(amount) => MintOk(w, s, amount);
    case StartShield(total, amounts) => 
    case StartPayment(channelId, noteId, amount) => PaymentBeginsOk(w, s, channelId, noteId, amount);
    case _ =>
  }

  /** The segment that inserts one note of a split shield. */
  lemma ShieldCommitsOk(w: World, b: Book, amounts: seq<int>, index: nat, output: Payload)
    requires Books(w, b) && OpOk(w, b, Shielding(amounts, index, output, Commit))
    ensures var book := AppendNotes(b, PlainTx(b, Shield), [output]);
            var b' := book.(publicBalance := book.publicBalance - output.amount);
            Books(w, b') && |b'.leaves| <= CAPACITY && OpOk(w, b', Shielding(amounts, index, output, Inserted))
  {
    hide Matched, Proven, NoteOf, FindLeaf;
    var book := AppendNotes(b, PlainTx(b, Shield), [output]);
    var rest := amounts[index..];
    assert rest[1..] == amounts[index + 1..];
    SumNonnegative(rest[1..]);
    DepositBooks(w, b, Shield, output);
    BooksIgnoreBalance(w, book, book.(publicBalance := book.publicBalance - output.amount));
  }

  lemma ShieldResumesOk(w: World, s: State, op: Op)
    requires Books(w, s.book) && |s.book.leaves| <= CAPACITY && op.Shielding? && OpOk(w, s.book, op)
    ensures SegmentOk(w, ResumeShield(w, s, op))
  {
    hide Books, AppendNotes;
    if op.phase == Commit {
      ShieldCommitsOk(w, s.book, op.amounts, op.index, op.output);
    }
  }

  /** The repeated double-spend check cannot fail: nothing can spend the input while the payment runs. */
  lemma RecheckPasses(w: World, b: Book, op: Op)
    requires Books(w, b) && op.Paying? && OpOk(w, b, op) && op.paymentStep == 4
    ensures op.input < |b.notes| && b.notes[op.input].status == Unspent && !NullifierPublished(b, op.nullifier)
  {
    forall t | 0 <= t < |b.txs| && b.txs[t].nullifier.Some? ensures b.txs[t].nullifier.value != op.nullifier {
      assert Spends(w, b, t, b.txs[t].input.value);
    }
  }

  lemma PaymentResumesOk(w: World, s: State, op: Op)
    requires Books(w, s.book) && |s.book.leaves| <= CAPACITY && op.Paying? && OpOk(w, s.book, op)
    ensures SegmentOk(w, ResumePayment(s, op))
  {
    if op.paymentStep == 4 {
      RecheckPasses(w, s.book, op);
      PayBooks(w, s.book, PaymentTx(s.book, op), op.input, op.outputs);
    }
  }

  /** Discovering a note and marking a transaction scanned. */
  lemma ScanBooks(w: World, b: Book, b': Book, t: nat)
    requires Books(w, b) && t < |b.txs|
    requires b' == AddTx(b.(notes := b'.notes, txs := b.txs[t := b.txs[t].(scanned := true)]), Scan)
    requires var n := b.txs[t].firstOutput;
             b'.notes == if n < |b.notes| then b.notes[n := b.notes[n].(discovered := true)] else b.notes
    ensures Books(w, b')
  {
    NoticeBooks(w, b, b');
    var n, marked := b.txs[t].firstOutput, b.txs[t].(scanned := true);
    if n < |b.notes| {
      UnspentUpdate(b.notes, n, b.notes[n].(discovered := true));
    }
    DepositsUpdate(b.txs, t, marked);
    DepositsAppend(b.txs[t := marked], b'.txs[|b.txs|]);
  }

  lemma {:induction false} ScanResumesOk(w: World, s: State, op: Op)
    requires Books(w, s.book) && |s.book.leaves| <= CAPACITY && op.Scanning?
    ensures SegmentOk(w, ResumeScan(s, op))
  {
    if op.scanStep >= 3 && op.tx < |s.book.txs| {
      ScanBooks(w, s.book, ResumeScan(s, op).s.book, op.tx);
    }
  }

  lemma ContinueOk(w: World, s: State, op: Op)
    requires Books(w, s.book) && |s.book.leaves| <= CAPACITY && OpOk(w, s.book, op)
    ensures SegmentOk(w, Continue(w, s, op))
  {
    match op
    case Shielding(_, _, _, _) => ShieldResumesOk(w, s, op);
    case OpeningChannel(_, _) => AddTxBooks(w, s.book, ConfigureTags);
    case Paying(_, _, _, _, _, _, _) => PaymentResumesOk(w, s, op);
    case Scanning(_, _) => ScanResumesOk(w, s, op);
  }

  lemma DepositOk(w: World, b: Book, owner: nat, salt: nat)
    requires Books(w, b)
    ensures Books(w, BackgroundDeposit(w, b, owner, salt))
            && |BackgroundDeposit(w, b, owner, salt).leaves| == |b.leaves| + 1
  {
    DepositBooks(w, b, BackgroundShield, MakePayload(w, owner, DEPOSIT, salt));
  }

  lemma BackgroundPayOk(w: World, b: Book, owner: nat, recipient: nat, input: nat, salt: nat)
    requires Books(w, b) && input < |b.notes| && Available(b.notes[input], owner)
    ensures Books(w, BackgroundPay(w, b, owner, recipient, input, salt))
    ensures |BackgroundPay(w, b, owner, recipient, input, salt).leaves| == |b.leaves| + 2
  {
    hide Matched, Proven, Conserved, Pay, PathOf;
    var held := b.notes[input].amount;
    var amount := if held < 10 then held else 10;
    var outputs := [MakePayload(w, recipient, amount, salt), MakePayload(w, owner, held - amount, salt + 1)];
    assert Splits(outputs, held);
    PayBooks(w, b, BackgroundTx(w, b, owner, input), input, outputs);
  }

  lemma TrafficOk(w: World, s: State)
    requires Books(w, s.book) && |s.book.leaves| <= CAPACITY
    ensures Books(w, Traffic(w, s).book) && |Traffic(w, s).book.leaves| <= CAPACITY
    ensures Traffic(w, s).ops == s.ops && Traffic(w, s).activity == s.activity && (s.activity ==> Traffic(w, s) == s)
  {
    hide Books, BackgroundDeposit, BackgroundPay;
    if !s.activity && |s.book.leaves| <= 253 {
      var count := BackgroundCount(s.book.txs);
      var owner := 1 + count % 9;
      var input := FirstAvailable(s.book.notes, owner, 0);
      if input.None? {
        DepositOk(w, s.book, owner, s.nextSalt);
        assert Traffic(w, s).book == BackgroundDeposit(w, s.book, owner, s.nextSalt);
      } else {
        var recipient := 1 + (count + 2) % 9;
        BackgroundPayOk(w, s.book, owner, recipient, input.value, s.nextSalt);
        assert Traffic(w, s).book == BackgroundPay(w, s.book, owner, recipient, input.value, s.nextSalt);
      }
    }
  }

  lemma {:induction false} NextInv(w: World, s: State, a: Action)
    requires Inv(w, s)
    ensures Inv(w, Next(w, s, a))
  {
    match a
    case Resume(i) =>
      if i < |s.ops| {
        ContinueOk(w, s, s.ops[i]);
      }
    case SetTraffic(on) =>
    case Tick => TrafficOk(w, s);
    case _ => BeginOk(w, s, a);
  }

  lemma {:induction false} RunInv(w: World, actions: seq<Action>)
    ensures Inv(w, Run(w, actions))
    decreases |actions|
  {
    if actions != [] {
      RunInv(w, actions[..|actions| - 1]);
      NextInv(w, Run(w, actions[..|actions| - 1]), actions[|actions| - 1]);
    }
  }

  // ---------- the theorems ----------

  /** At every yield point, with traffic interleaved: public plus unspent value is what was minted plus one
      deposit's worth per background deposit, nothing is negative, and the tree never overfills. */
  lemma {:induction false} ConservationAndCapacity(w: World, actions: seq<Action>)
    ensures var b := Run(w, actions).book;
            && b.publicBalance + UnspentTotal(b.notes) == b.minted + DEPOSIT * Deposits(b.txs)
            && b.publicBalance >= 0 && (forall i :: 0 <= i < |b.notes| ==> b.notes[i].amount >= 0)
            && |b.notes| == |b.leaves| <= CAPACITY
  {
    RunInv(w, actions);
  }

  /** `activity` is an exclusive lock: it is set exactly while the one running operation is between its
      yields, and then neither a new action nor the timer changes anything. */
  lemma {:induction false} Exclusion(w: World, actions: seq<Action>, a: Action)
    ensures var s := Run(w, actions);
            && |s.ops| <= 1 && (s.activity <==> |s.ops| == 1)
            && (s.activity && !a.Resume? && !a.SetTraffic? ==> Next(w, s, a) == s)
  {
    RunInv(w, actions);
  }

  /** All published nullifiers differ. */
  lemma {:induction false} NullifiersDistinct(w: World, actions: seq<Action>, t: nat, u: nat)
    requires t < u < |Run(w, actions).book.txs|
    requires Run(w, actions).book.txs[t].nullifier.Some? && Run(w, actions).book.txs[u].nullifier.Some?
    ensures Run(w, actions).book.txs[t].nullifier != Run(w, actions).book.txs[u].nullifier
  {
    RunInv(w, actions);
    var b := Run(w, actions).book;
    assert Spends(w, b, t, b.txs[t].input.value) && Spends(w, b, u, b.txs[u].input.value);
  }

  /** The two halves of the double-spend check agree: a note is marked spent exactly when its nullifier has
      been published. */
  lemma SpentIffPublished(w: World, actions: seq<Action>, n: nat)
    requires n < |Run(w, actions).book.notes|
    ensures var b := Run(w, actions).book;
            b.notes[n].status == Spent <==> NullifierPublished(b, Nullifier(w, b.notes[n].owner, b.notes[n].leafIndex))
  {
    RunInv(w, actions);
    var b := Run(w, actions).book;
  }

  /** Exactly one transaction spends each spent note, and it names the note as its input. */
  lemma {:induction false} OneSpender(w: World, actions: seq<Action>, n: nat, t: int)
    requires n < |Run(w, actions).book.notes| && Run(w, actions).book.notes[n].status == Spent
    ensures var b := Run(w, actions).book;
            b.notes[n].spentBy.Some? && (Spends(w, b, t, n) <==> t == b.notes[n].spentBy.value - 1)
  {
    RunInv(w, actions);
  }

  /** A payment that reaches its final check always commits. */
  lemma PaymentNeverAborts(w: World, actions: seq<Action>)
    requires |Run(w, actions).ops| == 1 && Run(w, actions).ops[0].Paying? && Run(w, actions).ops[0].paymentStep == 4
    ensures var s := Run(w, actions);
            var s' := Next(w, s, Resume(0));
            |s'.ops| == 1 && |s'.book.txs| == |s.book.txs| + 1 && |s'.book.leaves| == |s.book.leaves| + 2
            && s'.book.txs[|s.book.txs|].nullifier == Some(s.ops[0].nullifier)
  {
    RunInv(w, actions);
    RecheckPasses(w, Run(w, actions).book, Run(w, actions).ops[0]);
  }

  /** Every payment ever published carries a path that the circuit folds from the spent note's commitment
      to the root of the tree as it was, a prefix of today's leaves. */
  lemma {:induction false} PaymentsProveMembership(w: World, actions: seq<Action>, t: nat)
    requires t < |Run(w, actions).book.txs| && Run(w, actions).book.txs[t].kind == Payment
    ensures var b := Run(w, actions).book;
            && b.txs[t].input.Some? && b.txs[t].input.value < |b.notes| && b.txs[t].root.Some?
            && Fold(b.notes[b.txs[t].input.value].commitment, b.txs[t].input.value, b.txs[t].siblings)
               == b.txs[t].root.value
            && exists m: nat :: m <= |b.leaves| && b.txs[t].root.value == Root(Commitments(b.leaves)[..m], RETAIL_DEPTH)
  {
    RunInv(w, actions);
    ProofFolds(w, Run(w, actions).book, t);
  }

  lemma ProofFolds(w: World, b: Book, t: nat)
    requires Aligned(b) && Proven(b) && |b.leaves| <= CAPACITY && t < |b.txs| && b.txs[t].kind == Payment
    ensures b.txs[t].input.Some? && b.txs[t].input.value < |b.notes| && b.txs[t].root.Some?
    ensures Fold(b.notes[b.txs[t].input.value].commitment, b.txs[t].input.value, b.txs[t].siblings)
            == b.txs[t].root.value
    ensures exists m: nat :: m <= |b.leaves| && b.txs[t].root.value == Root(Commitments(b.leaves)[..m], RETAIL_DEPTH)
  {
    hide Root, Fold, Siblings;
    var m: nat :| ProvesIn(b, t, m);
    var n, tree := b.txs[t].input.value, Commitments(b.leaves)[..m];
    assert Pow2(8) == 256 by {
      assert Pow2(4) == 16;
    }
    PathComplete(tree, n, RETAIL_DEPTH);
  }
}
