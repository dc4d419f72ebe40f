/** What each Retail operation does once it has run to its end: who holds what afterwards, and when it is accepted. */
module RetailOutcomes {
  import opened Wrappers
  import opened Amounts
  import opened Hash
  import opened Merkle
  import opened Retail
  import opened RetailSafety
  import opened RetailRuns

  // ---------- one party's notes ----------

  /** Value of a party's unspent notes. */
  function Owned(notes: seq<Note>, owner: nat): int {
    if notes == [] then 0 else Worth(notes[0], owner) + Owned(notes[1..], owner)
  }

  function Worth(n: Note, owner: nat): int {
    if n.owner == owner && n.status == Unspent then n.amount else 0
  }

  lemma {:induction false} OwnedPush(notes: seq<Note>, n: Note, owner: nat)
    ensures Owned(notes + [n], owner) == Owned(notes, owner) + Worth(n, owner)
  {
    if notes == [] {
      assert notes + [n] == [n];
    } else {
      OwnedPush(notes[1..], n, owner);
      assert (notes + [n])[1..] == notes[1..] + [n];
    }
  }

  lemma {:induction false} OwnedUpdate(notes: seq<Note>, i: nat, n: Note, owner: nat)
    requires i < |notes|
    ensures Owned(notes[i := n], owner) == Owned(notes, owner) - Worth(notes[i], owner) + Worth(n, owner)
  {
    if i == 0 {
      assert notes[i := n][1..] == notes[1..];
    } else {
      OwnedUpdate(notes[1..], i - 1, n, owner);
      assert notes[i := n][1..] == notes[1..][i - 1 := n];
    }
  }

  /** A fresh unspent note on leaf `index`, committed under its owner's key. */
  ghost predicate Fresh(w: World, n: Note, owner: nat, amount: int, index: nat, tx: nat, discovered: bool) {
    && n.owner == owner && n.amount == amount && n.leafIndex == index && n.sourceTx == tx
    && n.status == Unspent && n.spentBy.None? && n.discovered == discovered
    && n.commitment == Hash4(Num(w.publicKey(owner)), Num(n.salt), Num(amount), Num(0))
  }

  // ---------- what else every run keeps ----------

  /** Channels are numbered in order and lead to distinct parties other than the visitor. */
  ghost predicate ChannelsOk(channels: seq<Channel>) {
    && (forall i :: 0 <= i < |channels| ==> channels[i].id == i && 1 <= channels[i].recipient < 10)
    && (forall i, j :: 0 <= i < j < |channels| ==> channels[i].recipient != channels[j].recipient)
  }

  /** Each payment's first output is a note that it created. */
  ghost predicate Sourced(b: Book) {
    forall t :: 0 <= t < |b.txs| && b.txs[t].kind == Payment ==>
      b.txs[t].firstOutput < |b.notes| && b.notes[b.txs[t].firstOutput].sourceTx == t + 1
  }

  ghost predicate Opening(s: State) {
    |s.ops| == 1 && s.ops[0].OpeningChannel? && s.ops[0].channelStep <= 2 ==>
      1 <= s.ops[0].recipient < 10 && !HasChannel(s.channels, s.ops[0].recipient)
  }

  ghost predicate Kept(s: State) {
    ChannelsOk(s.channels) && Sourced(s.book) && Opening(s)
  }

  lemma AppendSourced(b: Book, tx: Tx, ps: seq<Payload>)
    requires Sourced(b) && tx.id == |b.txs| + 1
    requires tx.kind == Payment ==> tx.firstOutput == |b.notes| && ps != []
    ensures Sourced(AppendNotes(b, tx, ps))
  {
    hide FindLeaf;
  }

  lemma SpendSourced(b: Book, n: nat, tx: nat)
    requires Sourced(b) && n < |b.notes|
    ensures Sourced(Spend(b, n, tx))
  {
  }

  lemma PaySourced(b: Book, tx: Tx, n: nat, ps: seq<Payload>)
    requires Sourced(b) && tx.id == |b.txs| + 1 && n < |b.notes|
    requires tx.kind == Payment ==> tx.firstOutput == |b.notes| && ps != []
    ensures Sourced(Pay(b, tx, n, ps))
  {
    hide Sourced;
    AppendSourced(b, tx, ps);
    SpendSourced(AppendNotes(b, tx, ps), n, tx.id);
  }

  lemma TrafficSourced(w: World, s: State)
    requires Sourced(s.book)
    ensures Sourced(Traffic(w, s).book) && Traffic(w, s).channels == s.channels
  {
    hide Sourced, Pay, AppendNotes, BackgroundTx;
    if !s.activity && |s.book.leaves| <= 253 {
      var count := BackgroundCount(s.book.txs);
      var owner, recipient := 1 + count % 9, 1 + (count + 2) % 9;
      var input := FirstAvailable(s.book.notes, owner, 0);
      if input.None? {
        AppendSourced(s.book, PlainTx(s.book, BackgroundShield), [MakePayload(w, owner, DEPOSIT, s.nextSalt)]);
      } else {
        BackgroundSourced(w, s.book, owner, recipient, input.value, s.nextSalt);
      }
    }
  }

  lemma BackgroundSourced(w: World, b: Book, owner: nat, recipient: nat, n: nat, salt: nat)
    requires Sourced(b) && n < |b.notes|
    ensures Sourced(BackgroundPay(w, b, owner, recipient, n, salt))
  {
    hide Sourced, Pay;
    var held := b.notes[n].amount;
    var amount := if held < 10 then held else 10;
    PaySourced(b, BackgroundTx(w, b, owner, n), n,
               [MakePayload(w, recipient, amount, salt), MakePayload(w, owner, held - amount, salt + 1)]);
  }

  lemma ContinueKept(w: World, s: State, op: Op)
    requires Inv(w, s) && Kept(s) && s.ops == [op]
    ensures Sourced(Continue(w, s, op).s.book)
    ensures ChannelsOk(Continue(w, s, op).s.channels)
    ensures Continue(w, s, op).rest.Some? ==> var rest := Continue(w, s, op).rest.value;
              rest.OpeningChannel? && rest.channelStep <= 2 ==>
                1 <= rest.recipient < 10 && !HasChannel(Continue(w, s, op).s.channels, rest.recipient)
  {
    hide Books, Pay, AppendNotes, MakePayload;
    match op
    case Shielding(_, _, output, phase) =>
      if phase == Commit {
        AppendSourced(s.book, PlainTx(s.book, Shield), [output]);
      }
    case Paying(input, _, outputs, _, _, _, step) =>
      if step == 4 && input < |s.book.notes| {
        PaySourced(s.book, PaymentTx(s.book, op), input, outputs);
      }
    case _ =>
  }

  lemma NextKept(w: World, s: State, a: Action)
    requires Inv(w, s) && Kept(s)
    ensures Kept(Next(w, s, a))
  {
    hide Books, Traffic, Continue, Sourced, ChannelsOk, OpOk;
    match a
    case Resume(i) =>
      if i < |s.ops| {
        assert s.ops == [s.ops[0]];
        ContinueKept(w, s, s.ops[0]);
      }
    case SetTraffic(_) =>
    case Tick =>
      TrafficSourced(w, s);
      TrafficKeepsOps(w, s);
    case _ => BeginKept(w, s, a);
  }

  lemma TrafficKeepsOps(w: World, s: State)
    ensures Traffic(w, s).ops == s.ops
  {
  }

  lemma BeginKept(w: World, s: State, a: Action)
    requires Kept(s)
    ensures Kept(Begin(w, s, a).s.(ops := [])) && Begin(w, s, a).s.ops == s.ops
    ensures Begin(w, s, a).rest.Some? ==>
              Begin(w, s, a).rest.value.OpeningChannel? ==>
                1 <= Begin(w, s, a).rest.value.recipient < 10
                && !HasChannel(Begin(w, s, a).s.channels, Begin(w, s, a).rest.value.recipient)
  {
    hide Root, Siblings, SelectInput, SelectChannel, FirstAvailable, GoodShieldPlan;
  }

  lemma {:induction false} RunKept(w: World, actions: seq<Action>)
    ensures Inv(w, Run(w, actions)) && Kept(Run(w, actions))
    decreases |actions|
  {
    hide Inv, Kept, Next;
    RunInv(w, actions);
    if actions == [] {
      assert Kept(Run(w, [])) by { NothingKept(w); }
    } else {
      RunKept(w, actions[..|actions| - 1]);
      NextKept(w, Run(w, actions[..|actions| - 1]), actions[|actions| - 1]);
    }
  }

  lemma NothingKept(w: World)
    ensures Kept(Run(w, []))
  {
  }

  // ---------- running an operation to its end ----------

  /** k resumptions of the running operation. */
  function Again(k: nat): (r: seq<Action>)
    ensures |r| == k
  {
    if k == 0 then [] else Again(k - 1) + [Resume(0)]
  }

  lemma RunExtend(w: World, actions: seq<Action>, a: Action)
    ensures Run(w, actions + [a]) == Next(w, Run(w, actions), a)
  {
    assert (actions + [a])[..|actions|] == actions;
  }

  lemma RunAgain(w: World, actions: seq<Action>, k: nat)
    requires k > 0
    ensures Run(w, actions + Again(k)) == Next(w, Run(w, actions + Again(k - 1)), Resume(0))
  {
    RunExtend(w, actions + Again(k - 1), Resume(0));
    assert actions + Again(k) == actions + Again(k - 1) + [Resume(0)];
  }

  /** The next segment of the only running operation. */
  lemma Resumes(w: World, s: State, op: Op)
    requires s.ops == [op]
    ensures var seg := Continue(w, s, op);
            seg.s.ops == s.ops ==>
              Next(w, s, Resume(0)) == if seg.rest.Some? then seg.s.(ops := [seg.rest.value], activity := true)
                                       else seg.s.(ops := [], activity := false)
  {
    hide Continue;
    assert [op][..0] + [op][1..] == [];
  }

  lemma AppendGrows(b: Book, tx: Tx, ps: seq<Payload>)
    ensures var b' := AppendNotes(b, tx, ps);
            && |b'.notes| == |b.notes| + |ps| && b'.notes[..|b.notes|] == b.notes
            && |b'.leaves| == |b.leaves| + |ps| && b'.leaves[..|b.leaves|] == b.leaves
            && b'.txs == b.txs + [tx] && b'.publicBalance == b.publicBalance && b'.minted == b.minted
            && forall i :: 0 <= i < |ps| ==>
                 && b'.leaves[|b.leaves| + i] == Leaf(ps[i].commitment, tx.id)
                 && b'.notes[|b.notes| + i] == NoteOf(b'.leaves, tx.id, tx.kind, ps[i], i)
  {
    hide FindLeaf, LeavesOf, NotesOf, NoteOf;
  }

  /** Appended notes are fresh notes of the payloads' owners and amounts. */
  lemma AppendFresh(w: World, b: Book, tx: Tx, ps: seq<Payload>)
    requires Aligned(b) && tx.id == |b.txs| + 1 && DistinctCommitments(ps)
    requires forall i :: 0 <= i < |ps| ==>
               ps[i].amount >= 0 && ps[i] == MakePayload(w, ps[i].owner, ps[i].amount, ps[i].salt)
    ensures var b' := AppendNotes(b, tx, ps);
            && |b'.notes| == |b.notes| + |ps| && b'.notes[..|b.notes|] == b.notes
            && |b'.leaves| == |b.leaves| + |ps| && b'.leaves[..|b.leaves|] == b.leaves
            && b'.txs == b.txs + [tx] && b'.publicBalance == b.publicBalance && b'.minted == b.minted
            && forall i :: 0 <= i < |ps| ==>
                 && b'.leaves[|b.leaves| + i] == Leaf(ps[i].commitment, tx.id)
                 && b'.notes[|b.notes| + i].commitment == ps[i].commitment
                 && Fresh(w, b'.notes[|b.notes| + i], ps[i].owner, ps[i].amount, |b.notes| + i, tx.id,
                          i == 1 || tx.kind == Shield || tx.kind == BackgroundShield || tx.kind == BackgroundPayment)
  {
    hide AppendNotes, NoteOf, MakePayload, Fresh, DistinctCommitments;
    var b' := AppendNotes(b, tx, ps);
    AppendGrows(b, tx, ps);
    AppendAligned(b, tx, ps);
    forall i | 0 <= i < |ps|
      ensures b'.notes[|b.notes| + i].commitment == ps[i].commitment
      ensures Fresh(w, b'.notes[|b.notes| + i], ps[i].owner, ps[i].amount, |b.notes| + i, tx.id,
                    i == 1 || tx.kind == Shield || tx.kind == BackgroundShield || tx.kind == BackgroundPayment)
    {
      NoteFresh(w, b'.leaves, tx, ps[i], i, |b.notes| + i);
    }
  }

  lemma NoteFresh(w: World, leaves: seq<Leaf>, tx: Tx, p: Payload, i: nat, at: nat)
    requires p == MakePayload(w, p.owner, p.amount, p.salt) && NoteOf(leaves, tx.id, tx.kind, p, i).leafIndex == at
    ensures Fresh(w, NoteOf(leaves, tx.id, tx.kind, p, i), p.owner, p.amount, at, tx.id,
                  i == 1 || tx.kind == Shield || tx.kind == BackgroundShield || tx.kind == BackgroundPayment)
  {
    hide FindLeaf;
  }

  // ---------- payments ----------

  /** The channel that a request names, or the last one opened, leads to the recipient. */
  predicate Leads(channels: seq<Channel>, channelId: Option<nat>, recipient: nat) {
    match channelId
    case None => channels != [] && channels[|channels| - 1].recipient == recipient
    case Some(i) => i < |channels| && channels[i].recipient == recipient
  }

  predicate Covers(n: Note, amount: int) {
    n.owner == 0 && n.status == Unspent && n.discovered && n.amount >= amount
  }

  /** The named note, or the earliest among the smallest of the visitor's notes that cover the amount. */
  predicate Picked(notes: seq<Note>, noteId: Option<nat>, amount: int, n: nat) {
    && n < |notes| && Covers(notes[n], amount)
    && (noteId.Some? ==> noteId.value == n)
    && (noteId.None? ==> forall j :: 0 <= j < |notes| && Covers(notes[j], amount) ==>
          notes[n].amount < notes[j].amount || (notes[n].amount == notes[j].amount && n <= j))
  }

  lemma {:induction false} FindsChannel(channels: seq<Channel>, base: nat, id: nat)
    requires forall i :: 0 <= i < |channels| ==> channels[i].id == base + i
    ensures FindChannel(channels, id)
         == if base <= id < base + |channels| then Some(channels[id - base]) else None
  {
    if channels != [] {
      FindsChannel(channels[1..], base + 1, id);
    }
  }

  lemma SelectsChannel(channels: seq<Channel>, channelId: Option<nat>)
    requires ChannelsOk(channels)
    ensures var c := SelectChannel(channels, channelId);
            (forall r: nat :: Leads(channels, channelId, r) <==> c.Some? && c.value.recipient == r)
            && (c.Some? ==> 1 <= c.value.recipient < 10)
  {
    if channelId.Some? {
      FindsChannel(channels, 0, channelId.value);
    }
  }

  lemma {:induction false} EarliestSmallest(notes: seq<Note>, amount: int)
    requires amount > 0
    ensures var r := SmallestSufficient(notes, amount);
            && (r.Some? ==> Picked(notes, None, amount, r.value))
            && (r.None? ==> forall j :: 0 <= j < |notes| ==> !Covers(notes[j], amount))
  {
    if notes != [] {
      EarliestSmallest(notes[..|notes| - 1], amount);
    }
  }

  lemma Picks(notes: seq<Note>, noteId: Option<nat>, amount: int)
    requires amount > 0
    ensures var r := SelectInput(notes, noteId, amount);
            forall n: nat :: Picked(notes, noteId, amount, n) <==> r == Some(n)
  {
    EarliestSmallest(notes, amount);
  }

  /** A payment begins exactly when its channel leads somewhere, its amount is positive and safe, a note covers it and
      the tree has room for two leaves; otherwise nothing changes. */
  lemma {:induction false} PaymentBegins(w: World, actions: seq<Action>, channelId: Option<nat>, noteId: Option<nat>,
                                         amount: int)
    requires !Run(w, actions).activity
    ensures var s := Run(w, actions);
            var s' := Next(w, s, StartPayment(channelId, noteId, amount));
            && (s'.activity <==>
                  && (exists r: nat :: Leads(s.channels, channelId, r)) && 0 < amount <= MAX_SAFE
                  && (exists n: nat :: Picked(s.book.notes, noteId, amount, n)) && |s.book.leaves| + 2 <= 256)
            && (!s'.activity ==> s' == s)
  {
    hide Root, Siblings, SelectInput, SelectChannel, Leads, Picked, Run, Books, FirstAvailable;
    RunKept(w, actions);
    var s := Run(w, actions);
    SelectsChannel(s.channels, channelId);
    if amount > 0 {
      Picks(s.book.notes, noteId, amount);
      LeafIndices(w, s.book);
    }
    var c := SelectChannel(s.channels, channelId);
    if c.Some? {
      assert Leads(s.channels, channelId, c.value.recipient);
    }
  }

  lemma LeafIndices(w: World, b: Book)
    requires Books(w, b)
    ensures forall i :: 0 <= i < |b.notes| ==> b.notes[i].leafIndex == i
    ensures |b.notes| == |b.leaves|
  {
  }

  /** What a completed payment leaves behind. */
  ghost predicate Paid(w: World, s: State, s': State, n: nat, recipient: nat, amount: int)
    requires n < |s.book.notes|
  {
    var b, b', at, t := s.book, s'.book, |s.book.notes|, |s.book.txs|;
    && |b'.notes| == at + 2 && b'.notes[..at] == b.notes[n := b.notes[n].(status := Spent, spentBy := Some(t + 1))]
    && Fresh(w, b'.notes[at], recipient, amount, at, t + 1, false)
    && Fresh(w, b'.notes[at + 1], 0, b.notes[n].amount - amount, at + 1, t + 1, true)
    && b'.leaves == b.leaves + [Leaf(b'.notes[at].commitment, t + 1), Leaf(b'.notes[at + 1].commitment, t + 1)]
    && |b'.txs| == t + 1 && b'.txs[..t] == b.txs
    && b'.txs[t] == Tx(t + 1, Payment, Some(n), Some(Hash2(Num(w.secretKey(0)), Num(n))), b'.txs[t].root,
                       b'.txs[t].siblings, at, false)
    && b'.txs[t].root == Some(Root(Commitments(b.leaves), RETAIL_DEPTH))
    && (forall p: nat :: Owned(b'.notes, p)
          == Owned(b.notes, p) - (if p == 0 then amount else 0) + (if p == recipient then amount else 0))
    && b'.publicBalance == b.publicBalance && b'.minted == b.minted
    && s'.channels == s.channels && !s'.activity && s'.ops == []
  }

  /** The running payment while it waits for the relayer. */
  lemma {:induction false} PaymentWaits(w: World, actions: seq<Action>, op: Op, k: nat)
    requires Run(w, actions).ops == [op] && Run(w, actions).activity && op.Paying? && op.paymentStep + k <= 4
    ensures Run(w, actions + Again(k)) == Run(w, actions).(ops := [op.(paymentStep := op.paymentStep + k)])
  {
    hide Run, Next;
    if k == 0 {
      assert actions + Again(0) == actions;
    } else {
      PaymentWaits(w, actions, op, k - 1);
      RunAgain(w, actions, k);
      var s := Run(w, actions + Again(k - 1));
      Resumes(w, s, s.ops[0]);
    }
  }

  /** From every reached idle state, an accepted payment that runs to its end spends the picked note, gives the
      recipient one note of the amount and the visitor one note of the rest, and changes nobody else's holdings. */
  lemma {:induction false} PaymentPays(w: World, actions: seq<Action>, channelId: Option<nat>, noteId: Option<nat>,
                                       amount: int, recipient: nat, n: nat)
    requires var s := Run(w, actions);
             && !s.activity && Leads(s.channels, channelId, recipient) && 0 < amount <= MAX_SAFE
             && Picked(s.book.notes, noteId, amount, n) && |s.book.leaves| + 2 <= 256
    ensures Paid(w, Run(w, actions), Run(w, actions + [StartPayment(channelId, noteId, amount)] + Again(7)), n,
                 recipient, amount)
  {
    hide Run, Next, Paid, Books, Kept, Picked, Leads, MakePayload, PaymentTx, Root, Siblings, ResumePayment;
    RunKept(w, actions);
    var s := Run(w, actions);
    var start := StartPayment(channelId, noteId, amount);
    var begun := actions + [start];
    RunExtend(w, actions, start);
    RunKept(w, begun);
    assert n < |s.book.notes| && Covers(s.book.notes[n], amount) by { PickedInside(s.book.notes, noteId, amount, n); }
    var op := PaymentOp(w, s, channelId, noteId, amount, recipient, n);
    var s1 := Run(w, begun);
    PaymentWaits(w, begun, op, 4);
    var op4 := op.(paymentStep := 4);
    var s4 := s1.(ops := [op4]);
    RunKept(w, begun + Again(4));
    RunAgain(w, begun, 5);
    RunAgain(w, begun, 6);
    RunAgain(w, begun, 7);
    PaymentCommits(w, s4, op4);
    PaymentPaid(w, s, s4, op4, n, recipient, amount, Next(w, Next(w, Next(w, s4, Resume(0)), Resume(0)), Resume(0)));
  }

  lemma PickedInside(notes: seq<Note>, noteId: Option<nat>, amount: int, n: nat)
    requires Picked(notes, noteId, amount, n)
    ensures n < |notes| && Covers(notes[n], amount)
  {
  }

  /** What a payment holds between its yields. */
  function Held(w: World, s: State, channel: Channel, amount: int, n: nat): Op
    requires n < |s.book.notes|
  {
    Paying(n, channel, [MakePayload(w, channel.recipient, amount, s.nextSalt),
                        MakePayload(w, 0, s.book.notes[n].amount - amount, s.nextSalt + 1)],
           Root(Commitments(s.book.leaves), RETAIL_DEPTH), Siblings(Commitments(s.book.leaves), n, RETAIL_DEPTH),
           Nullifier(w, 0, n), 0)
  }

  lemma PaymentOp(w: World, s: State, channelId: Option<nat>, noteId: Option<nat>, amount: int, recipient: nat, n: nat)
    returns (op: Op)
    requires Inv(w, s) && Kept(s)
    requires !s.activity && Leads(s.channels, channelId, recipient) && 0 < amount <= MAX_SAFE
             && Picked(s.book.notes, noteId, amount, n) && |s.book.leaves| + 2 <= 256
    ensures n < |s.book.notes| && op.Paying? && op == Held(w, s, op.channel, amount, n)
    ensures op.channel.recipient == recipient && 1 <= recipient < 10
    ensures Next(w, s, StartPayment(channelId, noteId, amount))
            == s.(ops := [op], activity := true, nextSalt := s.nextSalt + 2)
  {
    hide Root, Siblings, SelectInput, SelectChannel, Leads, Books, Picked;
    SelectsChannel(s.channels, channelId);
    Picks(s.book.notes, noteId, amount);
    LeafIndices(w, s.book);
    op := Held(w, s, SelectChannel(s.channels, channelId).value, amount, n);
    assert s.ops == [];
  }

  /** The last three segments: commit, then two yields. */
  lemma PaymentCommits(w: World, s: State, op: Op)
    requires Inv(w, s) && s.ops == [op] && s.activity && op.Paying? && op.paymentStep == 4 && op.input < |s.book.notes|
    ensures Next(w, Next(w, Next(w, s, Resume(0)), Resume(0)), Resume(0))
            == s.(book := Pay(s.book, PaymentTx(s.book, op), op.input, op.outputs), ops := [], activity := false)
  {
    hide Books, Next, Pay, PaymentTx;
    RecheckPasses(w, s.book, op);
    Resumes(w, s, op);
    var s5 := Next(w, s, Resume(0));
    Resumes(w, s5, s5.ops[0]);
    var s6 := Next(w, s5, Resume(0));
    Resumes(w, s6, s6.ops[0]);
  }

  lemma PaymentPaid(w: World, s: State, s4: State, op: Op, n: nat, recipient: nat, amount: int, s': State)
    requires Inv(w, s) && n < |s.book.notes| && op.Paying? && 0 < amount <= s.book.notes[n].amount
    requires op.(paymentStep := 0) == Held(w, s, op.channel, amount, n) && op.paymentStep == 4
    requires op.channel.recipient == recipient
    requires 1 <= recipient < 10 && s4.book == s.book && s4.channels == s.channels
    requires s.book.notes[n].owner == 0 && s.book.notes[n].status == Unspent
    requires s' == s4.(book := Pay(s.book, PaymentTx(s.book, op), n, op.outputs), ops := [], activity := false)
    ensures Paid(w, s, s', n, recipient, amount)
  {
    hide AppendNotes, Root, Siblings, Books, Fresh, NoteCommitment;
    var b, tx, ps := s.book, PaymentTx(s.book, op), op.outputs;
    assert DistinctCommitments(ps) by { SaltsDiffer(w, recipient, amount, 0, b.notes[n].amount - amount, s.nextSalt); }
    assert Aligned(b) by { BooksAligned(w, b); }
    AppendFresh(w, b, tx, ps);
    var mid := AppendNotes(b, tx, ps);
    var at := |b.notes|;
    assert ps[0].owner == recipient && ps[0].amount == amount && ps[1].owner == 0;
    assert mid.notes[at + 0] == mid.notes[at] && mid.leaves[|b.leaves| + 0] == mid.leaves[|b.leaves|];
    assert mid.notes == b.notes + [mid.notes[at]] + [mid.notes[at + 1]];
    assert s'.book.notes == mid.notes[n := mid.notes[n].(status := Spent, spentBy := Some(tx.id))];
    assert s'.book.notes[at] == mid.notes[at] && s'.book.notes[at + 1] == mid.notes[at + 1];
    forall p: nat ensures Owned(s'.book.notes, p)
        == Owned(b.notes, p) - (if p == 0 then amount else 0) + (if p == recipient then amount else 0)
    {
      FreshWorth(w, mid.notes[at], recipient, amount, at, tx.id, false, p);
      FreshWorth(w, mid.notes[at + 1], 0, b.notes[n].amount - amount, at + 1, tx.id, true, p);
      OwnedPush(b.notes, mid.notes[at], p);
      OwnedPush(b.notes + [mid.notes[at]], mid.notes[at + 1], p);
      OwnedUpdate(mid.notes, n, mid.notes[n].(status := Spent, spentBy := Some(tx.id)), p);
    }
  }

  lemma SaltsDiffer(w: World, p: nat, x: int, q: nat, y: int, salt: nat)
    ensures DistinctCommitments([MakePayload(w, p, x, salt), MakePayload(w, q, y, salt + 1)])
  {
  }

  lemma FreshWorth(w: World, note: Note, owner: nat, amount: int, index: nat, tx: nat, discovered: bool, p: nat)
    requires Fresh(w, note, owner, amount, index, tx, discovered)
    ensures Worth(note, p) == if p == owner then amount else 0
  {
  }
}
