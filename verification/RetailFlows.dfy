/** Minting, shielding, channels, scans and background traffic of the Retail walkthrough, run to their ends. */
module RetailFlows {
  import opened Wrappers
  import opened Amounts
  import opened Retail
  import opened RetailSafety
  import opened RetailRuns
  import opened RetailOutcomes

  // ---------- minting ----------

  /** A mint is accepted exactly when the amount is positive and the balance stays safe; it adds the amount to the
      public balance and touches neither notes nor leaves. */
  lemma {:induction false} MintAdds(w: World, actions: seq<Action>, amount: int)
    requires !Run(w, actions).activity
    ensures var s := Run(w, actions);
            var s' := Next(w, s, StartMint(amount));
            if 0 < amount <= MAX_SAFE && s.book.publicBalance + amount <= MAX_SAFE then
              s' == s.(book := s.book.(publicBalance := s.book.publicBalance + amount, minted := s.book.minted + amount,
                                       txs := s'.book.txs))
              && |s'.book.txs| == |s.book.txs| + 1 && s'.book.txs[..|s.book.txs|] == s.book.txs
            else s' == s
  {
    RunInv(w, actions);
  }

  // ---------- shielding ----------

  /** One discovered note of the visitor per amount, paid for from the public balance. */
  ghost predicate Shielded(w: World, b: Book, b': Book, amounts: seq<int>) {
    var at := |b.notes|;
    && b'.publicBalance == b.publicBalance - Sum(amounts) && b'.minted == b.minted
    && |b'.notes| == at + |amounts| && b'.notes[..at] == b.notes
    && |b'.txs| == |b.txs| + |amounts| && b'.txs[..|b.txs|] == b.txs
    && forall i :: 0 <= i < |amounts| ==> Fresh(w, b'.notes[at + i], 0, amounts[i], at + i, |b.txs| + 1 + i, true)
  }

  lemma ShieldedTwice(w: World, b: Book, mid: Book, b': Book, amounts: seq<int>)
    requires amounts != [] && Shielded(w, b, mid, amounts[..1]) && Shielded(w, mid, b', amounts[1..])
    ensures Shielded(w, b, b', amounts)
  {
    hide Fresh;
    var at := |b.notes|;
    assert amounts[..1][1..] == [];
    assert amounts[..1][0] == amounts[0] && Sum(amounts[..1]) == amounts[0];
    assert forall i :: 0 <= i < |mid.notes| ==> b'.notes[i] == b'.notes[..|mid.notes|][i];
    assert forall i :: 0 <= i < |mid.txs| ==> b'.txs[i] == b'.txs[..|mid.txs|][i];
    assert b'.notes[..at] == b.notes && b'.txs[..|b.txs|] == b.txs;
    forall i | 0 <= i < |amounts| ensures Fresh(w, b'.notes[at + i], 0, amounts[i], at + i, |b.txs| + 1 + i, true) {
      if i > 0 {
        assert amounts[1..][i - 1] == amounts[i];
        assert Fresh(w, b'.notes[|mid.notes| + (i - 1)], 0, amounts[1..][i - 1], |mid.notes| + (i - 1),
                     |mid.txs| + 1 + (i - 1), true);
      } else {
        assert amounts[..1][0] == amounts[0] && mid.notes[at + 0] == b'.notes[at];
        assert Fresh(w, mid.notes[at + 0], 0, amounts[..1][0], at + 0, |b.txs| + 1 + 0, true);
      }
    }
  }

  lemma ShieldsOne(w: World, b: Book, amount: int, salt: nat)
    requires Aligned(b) && amount > 0
    ensures var book := AppendNotes(b, PlainTx(b, Shield), [MakePayload(w, 0, amount, salt)]);
            Shielded(w, b, book.(publicBalance := book.publicBalance - amount), [amount])
  {
    hide AppendNotes, Fresh, NoteCommitment;
    assert [amount][1..] == [];
    var ps := [MakePayload(w, 0, amount, salt)];
    AppendFresh(w, b, PlainTx(b, Shield), ps);
    assert ps[0].owner == 0 && ps[0].amount == amount && Sum([amount]) == amount;
    assert Fresh(w, AppendNotes(b, PlainTx(b, Shield), ps).notes[|b.notes| + 0], 0, amount, |b.notes| + 0,
                 |b.txs| + 1, true);
  }

  lemma AgainSplit(actions: seq<Action>, j: nat, k: nat)
    ensures actions + Again(j + k) == actions + Again(j) + Again(k)
    decreases k
  {
    if k > 0 {
      AgainSplit(actions, j, k - 1);
      assert actions + Again(j + k) == actions + Again(j + k - 1) + [Resume(0)];
    }
  }

  /** The three segments of one note. */
  lemma {:induction false} ShieldSegments(w: World, actions: seq<Action>, op: Op)
    requires var s := Run(w, actions);
             && s.ops == [op] && s.activity && op.Shielding? && op.phase == Derive && op.index < |op.amounts|
             && op.amounts[op.index] > 0 && op.output == MakePayload(w, 0, op.amounts[op.index], op.output.salt)
    ensures var s, s' := Run(w, actions), Run(w, actions + Again(3));
            && Shielded(w, s.book, s'.book, [op.amounts[op.index]]) && s'.channels == s.channels
            && (if op.index + 1 < |op.amounts| then
                  && s'.activity && |s'.ops| == 1 && s'.ops[0].Shielding?
                  && s'.ops[0] == Shielding(op.amounts, op.index + 1,
                                            MakePayload(w, 0, op.amounts[op.index + 1], s'.ops[0].output.salt), Derive)
                else !s'.activity && s'.ops == [])
  {
    hide Run, Next, AppendNotes, Shielded, NoteCommitment;
    var s := Run(w, actions);
    RunInv(w, actions);
    assert Aligned(s.book) by { BooksAligned(w, s.book); }
    assert actions + Again(0) == actions;
    RunAgain(w, actions, 1);
    RunAgain(w, actions, 2);
    RunAgain(w, actions, 3);
    Resumes(w, s, op);
    var s1 := Next(w, s, Resume(0));
    Resumes(w, s1, s1.ops[0]);
    var s2 := Next(w, s1, Resume(0));
    Resumes(w, s2, s2.ops[0]);
    ShieldsOne(w, s.book, op.amounts[op.index], op.output.salt);
  }

  lemma {:induction false} ShieldsRest(w: World, actions: seq<Action>, op: Op)
    requires var s := Run(w, actions);
             && s.ops == [op] && s.activity && op.Shielding? && op.phase == Derive && op.index < |op.amounts|
             && op.output == MakePayload(w, 0, op.amounts[op.index], op.output.salt)
             && forall i :: 0 <= i < |op.amounts| ==> op.amounts[i] > 0
    ensures var s, s' := Run(w, actions), Run(w, actions + Again(3 * (|op.amounts| - op.index)));
            && Shielded(w, s.book, s'.book, op.amounts[op.index..]) && s'.channels == s.channels
            && !s'.activity && s'.ops == []
    decreases |op.amounts| - op.index
  {
    hide Run, Shielded, MakePayload;
    var rest := op.amounts[op.index..];
    ShieldSegments(w, actions, op);
    assert rest[..1] == [op.amounts[op.index]];
    if op.index + 1 < |op.amounts| {
      var next := Run(w, actions + Again(3)).ops[0];
      AgainSplit(actions, 3, 3 * (|op.amounts| - op.index - 1));
      ShieldsRest(w, actions + Again(3), next);
      assert rest[1..] == op.amounts[op.index + 1..];
      ShieldedTwice(w, Run(w, actions).book, Run(w, actions + Again(3)).book,
                    Run(w, actions + Again(3 * (|op.amounts| - op.index))).book, rest);
    } else {
      assert rest == rest[..1];
    }
  }

  /** A shield of one to four positive amounts that add up to the requested total, within the public balance and the
      tree's room, runs to its end and turns that much public balance into one note of the visitor per amount. */
  lemma {:induction false} ShieldPays(w: World, actions: seq<Action>, total: int, amounts: seq<int>)
    requires var s := Run(w, actions);
             && !s.activity && 1 <= |amounts| <= 4 && total == Sum(amounts) <= MAX_SAFE && total <= s.book.publicBalance
             && (forall i :: 0 <= i < |amounts| ==> 0 < amounts[i] <= MAX_SAFE) && |s.book.leaves| + |amounts| <= 256
    ensures var s := Run(w, actions);
            var s' := Run(w, actions + [StartShield(total, amounts)] + Again(3 * |amounts|));
            Shielded(w, s.book, s'.book, amounts) && s'.channels == s.channels && !s'.activity && s'.ops == []
  {
    hide Run, Shielded, NoteCommitment;
    RunInv(w, actions);
    var s := Run(w, actions);
    var start := StartShield(total, amounts);
    RunExtend(w, actions, start);
    SumPositive(amounts);
    ShieldStarts(w, s, total, amounts);
    ShieldsRest(w, actions + [start], Run(w, actions + [start]).ops[0]);
    assert amounts[0..] == amounts;
  }

  lemma {:induction false} SumPositive(xs: seq<int>)
    requires forall i :: 0 <= i < |xs| ==> xs[i] > 0
    ensures Sum(xs) >= 0 && (xs != [] ==> Sum(xs) > 0)
  {
    if xs != [] {
      SumPositive(xs[1..]);
    }
  }

  lemma ShieldStarts(w: World, s: State, total: int, amounts: seq<int>)
    requires !s.activity && s.ops == [] && GoodShieldPlan(total, amounts, s.book.publicBalance)
             && |s.book.leaves| + |amounts| <= 256
    ensures Next(w, s, StartShield(total, amounts))
            == s.(ops := [Shielding(amounts, 0, MakePayload(w, 0, amounts[0], s.nextSalt), Derive)], activity := true,
                  nextSalt := s.nextSalt + 1)
  {
    hide MakePayload;
  }

  /** Any other shield request changes nothing. */
  lemma {:induction false} ShieldRejects(w: World, actions: seq<Action>, total: int, amounts: seq<int>)
    requires var s := Run(w, actions);
             && !s.activity
             && !(1 <= |amounts| <= 4 && total == Sum(amounts) <= MAX_SAFE && total <= s.book.publicBalance
                  && (forall i :: 0 <= i < |amounts| ==> 0 < amounts[i] <= MAX_SAFE)
                  && |s.book.leaves| + |amounts| <= 256)
    ensures Next(w, Run(w, actions), StartShield(total, amounts)) == Run(w, actions)
  {
    hide Run;
    RunInv(w, actions);
  }

  // ---------- channels ----------

  /** A channel to another party that has none yet runs to its end; any other request changes nothing. */
  lemma {:induction false} ChannelOpens(w: World, actions: seq<Action>, recipient: nat)
    requires !Run(w, actions).activity
    ensures var s := Run(w, actions);
            var s' := Run(w, actions + [StartChannel(recipient)] + Again(4));
            if 1 <= recipient < 10 && !HasChannel(s.channels, recipient) then
              && s'.channels == s.channels + [Channel(|s.channels|, recipient)]
              && s' == s.(channels := s'.channels, book := s.book.(txs := s'.book.txs))
              && |s'.book.txs| == |s.book.txs| + 1 && s'.book.txs[..|s.book.txs|] == s.book.txs
            else s' == s
  {
    hide Run, Next;
    RunInv(w, actions);
    var s, start := Run(w, actions), StartChannel(recipient);
    RunExtend(w, actions, start);
    var begun := actions + [start];
    assert begun + Again(0) == begun;
    RunAgain(w, begun, 1);
    RunAgain(w, begun, 2);
    RunAgain(w, begun, 3);
    RunAgain(w, begun, 4);
    ChannelStarts(w, s, recipient);
    var s1 := Run(w, begun);
    if s1.ops != [] {
      Resumes(w, s1, s1.ops[0]);
      var s2 := Next(w, s1, Resume(0));
      Resumes(w, s2, s2.ops[0]);
      var s3 := Next(w, s2, Resume(0));
      Resumes(w, s3, s3.ops[0]);
      var s4 := Next(w, s3, Resume(0));
      Resumes(w, s4, s4.ops[0]);
    } else {
      NothingResumes(w, s);
    }
  }

  lemma ChannelStarts(w: World, s: State, recipient: nat)
    requires !s.activity && s.ops == []
    ensures Next(w, s, StartChannel(recipient))
         == if 1 <= recipient < 10 && !HasChannel(s.channels, recipient)
            then s.(ops := [OpeningChannel(recipient, 0)], activity := true) else s
  {
  }

  lemma NothingResumes(w: World, s: State)
    requires s.ops == []
    ensures Next(w, s, Resume(0)) == s
  {
  }

  // ---------- scans ----------

  /** The payment that a scan request names, or the last one. */
  predicate Named(txs: seq<Tx>, txId: Option<nat>, t: nat) {
    && t < |txs| && txs[t].kind == Payment
    && (match txId
        case Some(id) => t + 1 == id
        case None => forall u :: t < u < |txs| ==> txs[u].kind != Payment)
  }

  lemma {:induction false} LastNamed(txs: seq<Tx>)
    ensures var r := LastPayment(txs);
            && (r.Some? ==> Named(txs, None, r.value))
            && (r.None? ==> forall u :: 0 <= u < |txs| ==> txs[u].kind != Payment)
  {
    if txs != [] && txs[|txs| - 1].kind != Payment {
      LastNamed(txs[..|txs| - 1]);
    }
  }

  lemma Selects(txs: seq<Tx>, txId: Option<nat>, t: nat)
    ensures Named(txs, txId, t) <==> SelectPayment(txs, txId) == Some(t)
  {
    LastNamed(txs);
  }

  /** A scan of a payment that was not scanned yet runs to its end: the note that the payment created for its recipient
      is discovered and the payment is marked; nothing else about notes, leaves or balances changes. A second scan
      changes nothing. */
  lemma {:induction false} ScanDiscovers(w: World, actions: seq<Action>, txId: Option<nat>, t: nat)
    requires !Run(w, actions).activity && Named(Run(w, actions).book.txs, txId, t)
    ensures var s := Run(w, actions);
            var s' := Run(w, actions + [StartScan(txId)] + Again(4));
            if s.book.txs[t].scanned then s' == s
            else
              var n := s.book.txs[t].firstOutput;
              && n < |s.book.notes| && s.book.notes[n].sourceTx == t + 1
              && s'.book.notes == s.book.notes[n := s.book.notes[n].(discovered := true)]
              && |s'.book.txs| == |s.book.txs| + 1
              && s'.book.txs[..|s.book.txs|] == s.book.txs[t := s.book.txs[t].(scanned := true)]
              && s' == s.(book := s.book.(notes := s'.book.notes, txs := s'.book.txs))
  {
    hide Run, Next, Kept, Named;
    RunKept(w, actions);
    var s, start := Run(w, actions), StartScan(txId);
    RunExtend(w, actions, start);
    var begun := actions + [start];
    assert begun + Again(0) == begun;
    RunAgain(w, begun, 1);
    RunAgain(w, begun, 2);
    RunAgain(w, begun, 3);
    RunAgain(w, begun, 4);
    assert t < |s.book.txs| && s.book.txs[t].kind == Payment by { NamedInside(s.book.txs, txId, t); }
    assert Sourced(s.book) by { KeptSourced(s); }
    ScanStarts(w, s, txId, t);
    var s1 := Run(w, begun);
    if s.book.txs[t].scanned {
      NothingResumes(w, s);
    } else {
      Resumes(w, s1, s1.ops[0]);
      var s2 := Next(w, s1, Resume(0));
      Resumes(w, s2, s2.ops[0]);
      var s3 := Next(w, s2, Resume(0));
      Resumes(w, s3, s3.ops[0]);
      var s4 := Next(w, s3, Resume(0));
      Resumes(w, s4, s4.ops[0]);
    }
  }

  lemma NamedInside(txs: seq<Tx>, txId: Option<nat>, t: nat)
    requires Named(txs, txId, t)
    ensures t < |txs| && txs[t].kind == Payment
  {
  }

  lemma KeptSourced(s: State)
    requires Kept(s)
    ensures Sourced(s.book)
  {
  }

  lemma ScanStarts(w: World, s: State, txId: Option<nat>, t: nat)
    requires !s.activity && s.ops == [] && Named(s.book.txs, txId, t)
    ensures Next(w, s, StartScan(txId))
         == if s.book.txs[t].scanned then s else s.(ops := [Scanning(t, 0)], activity := true)
  {
    hide SelectPayment, Named;
    Selects(s.book.txs, txId, t);
  }

  // ---------- background traffic ----------

  /** A tick changes something exactly when traffic is on and no operation runs. With more than 253 leaves it switches
      traffic off. Otherwise the next of the nine background wallets in turn either deposits 100 or, if it has an
      available note, pays the wallet two places further up to 10 out of its first one and keeps the rest. */
  lemma {:induction false} TickExact(w: World, actions: seq<Action>)
    ensures var s := Run(w, actions);
            var s' := Next(w, s, Tick);
            if !s.traffic || s.activity then s' == s
            else if |s.book.leaves| > 253 then s' == s.(traffic := false)
            else Ticked(w, s, s')
  {
    hide Run, Books, BackgroundDeposit, BackgroundPay, Ticked, Traffic;
    RunInv(w, actions);
    var s := Run(w, actions);
    if s.traffic && !s.activity && |s.book.leaves| <= 253 {
      TrafficTicks(w, s);
    } else {
      TrafficRests(w, s);
    }
  }

  ghost predicate Ticked(w: World, s: State, s': State) {
    var b, b', at, t := s.book, s'.book, |s.book.notes|, |s.book.txs|;
    var turn := BackgroundCount(b.txs);
    var owner, recipient := 1 + turn % 9, 1 + (turn + 2) % 9;
    && |b'.txs| == t + 1 && b'.txs[..t] == b.txs && BackgroundCount(b'.txs) == turn + 1
    && b'.publicBalance == b.publicBalance && b'.minted == b.minted
    && s' == s.(book := b', nextSalt := s'.nextSalt)
    && if forall j :: 0 <= j < at ==> !Available(b.notes[j], owner) then
         && |b'.notes| == at + 1 && b'.notes[..at] == b.notes
         && Fresh(w, b'.notes[at], owner, 100, at, t + 1, true)
       else
         exists n: nat :: n < at && Available(b.notes[n], owner)
           && (forall j :: 0 <= j < n ==> !Available(b.notes[j], owner)) && TickPaid(w, b, b', n, owner, recipient)
  }

  ghost predicate TickPaid(w: World, b: Book, b': Book, n: nat, owner: nat, recipient: nat)
    requires n < |b.notes|
  {
    var at, t, held := |b.notes|, |b.txs|, b.notes[n].amount;
    var amount := if held < 10 then held else 10;
    && |b'.notes| == at + 2 && b'.notes[..at] == b.notes[n := b.notes[n].(status := Spent, spentBy := Some(t + 1))]
    && Fresh(w, b'.notes[at], recipient, amount, at, t + 1, true)
    && Fresh(w, b'.notes[at + 1], owner, held - amount, at + 1, t + 1, true)
  }

  lemma TrafficRests(w: World, s: State)
    requires !s.traffic || s.activity || |s.book.leaves| > 253
    ensures Next(w, s, Tick) == if !s.traffic || s.activity then s else s.(traffic := false)
  {
  }

  lemma TrafficTicks(w: World, s: State)
    requires Books(w, s.book) && s.traffic && !s.activity && |s.book.leaves| <= 253
    ensures Ticked(w, s, Next(w, s, Tick))
  {
    hide Books, BackgroundDeposit, BackgroundPay, Fresh, TickPaid, BackgroundCount, Available;
    var turn := BackgroundCount(s.book.txs);
    var owner, recipient := 1 + turn % 9, 1 + (turn + 2) % 9;
    var input := FirstAvailable(s.book.notes, owner, 0);
    if input.None? {
      Deposited(w, s.book, owner, s.nextSalt);
    } else {
      PaidInBackground(w, s.book, owner, recipient, input.value, s.nextSalt);
    }
  }

  lemma {:induction false} CountPush(txs: seq<Tx>, tx: Tx)
    ensures BackgroundCount(txs + [tx])
         == BackgroundCount(txs) + if tx.kind == BackgroundShield || tx.kind == BackgroundPayment then 1 else 0
  {
    if txs == [] {
      assert txs + [tx] == [tx];
    } else {
      CountPush(txs[1..], tx);
      assert (txs + [tx])[1..] == txs[1..] + [tx];
    }
  }

  lemma Deposited(w: World, b: Book, owner: nat, salt: nat)
    requires Books(w, b)
    ensures var b', at, t := BackgroundDeposit(w, b, owner, salt), |b.notes|, |b.txs|;
            && |b'.notes| == at + 1 && b'.notes[..at] == b.notes && Fresh(w, b'.notes[at], owner, 100, at, t + 1, true)
            && |b'.txs| == t + 1 && b'.txs[..t] == b.txs && BackgroundCount(b'.txs) == BackgroundCount(b.txs) + 1
            && b'.publicBalance == b.publicBalance && b'.minted == b.minted
  {
    hide Books, AppendNotes, Fresh, NoteCommitment, BackgroundCount;
    BooksAligned(w, b);
    var tx, ps := PlainTx(b, BackgroundShield), [MakePayload(w, owner, DEPOSIT, salt)];
    AppendFresh(w, b, tx, ps);
    assert ps[0].owner == owner && ps[0].amount == 100;
    CountPush(b.txs, tx);
  }

  lemma PaidInBackground(w: World, b: Book, owner: nat, recipient: nat, n: nat, salt: nat)
    requires Books(w, b) && n < |b.notes| && Available(b.notes[n], owner)
    ensures var b', t := BackgroundPay(w, b, owner, recipient, n, salt), |b.txs|;
            && TickPaid(w, b, b', n, owner, recipient)
            && |b'.txs| == t + 1 && b'.txs[..t] == b.txs && BackgroundCount(b'.txs) == BackgroundCount(b.txs) + 1
            && b'.publicBalance == b.publicBalance && b'.minted == b.minted
  {
    hide Books, AppendNotes, Fresh, NoteCommitment, BackgroundCount;
    BooksAligned(w, b);
    var held, at := b.notes[n].amount, |b.notes|;
    var amount := if held < 10 then held else 10;
    var tx := BackgroundTx(w, b, owner, n);
    var ps := [MakePayload(w, recipient, amount, salt), MakePayload(w, owner, held - amount, salt + 1)];
    assert DistinctCommitments(ps) by { SaltsDiffer(w, recipient, amount, owner, held - amount, salt); }
    AppendFresh(w, b, tx, ps);
    assert ps[0].owner == recipient && ps[0].amount == amount && ps[1].owner == owner;
    CountPush(b.txs, tx);
    var mid, b' := AppendNotes(b, tx, ps), BackgroundPay(w, b, owner, recipient, n, salt);
    assert b' == Pay(b, tx, n, ps);
    assert mid.notes[at + 0] == mid.notes[at] == b'.notes[at] && mid.notes[at + 1] == b'.notes[at + 1];
    assert b'.notes[..at] == b.notes[n := b.notes[n].(status := Spent, spentBy := Some(tx.id))];
  }
}
