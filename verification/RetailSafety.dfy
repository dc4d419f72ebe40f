/** Conservation, capacity, exclusion, nullifier and membership laws of the Retail ledger, at every yield
    point of every run. */
module RetailSafety {
  import opened Wrappers
  import opened Hash
  import opened Merkle
  import opened Retail

  function UnspentTotal(notes: seq<Note>): int {
    if notes == [] then 0
    else (if notes[0].status == Unspent then notes[0].amount else 0) + UnspentTotal(notes[1..])
  }

  function Deposits(txs: seq<Tx>): nat {
    if txs == [] then 0 else (if txs[0].kind == BackgroundShield then 1 else 0) + Deposits(txs[1..])
  }

  // ---------- the invariant ----------

  /** Note i sits on leaf i, and transaction ids are ordinals. */
  ghost predicate Aligned(b: Book) {
    && |b.notes| == |b.leaves|
    && (forall i :: 0 <= i < |b.notes| ==>
          b.notes[i].leafIndex == i && b.notes[i].commitment == b.leaves[i].commitment && b.notes[i].amount >= 0)
    && (forall i :: 0 <= i < |b.leaves| ==> b.leaves[i].sourceTx <= |b.txs|)
    && (forall t :: 0 <= t < |b.txs| ==> b.txs[t].id == t + 1)
  }

  /** Transaction t published the nullifier of note n and is the one that spent it. */
  ghost predicate Spends(w: World, b: Book, t: int, n: int) {
    && 0 <= t < |b.txs| && 0 <= n < |b.notes|
    && b.txs[t].input == Some(n as nat) && b.txs[t].nullifier == Some(Nullifier(w, b.notes[n].owner, n))
    && b.notes[n].status == Spent && b.notes[n].spentBy == Some(t as nat + 1)
  }

  /** Spent notes and nullifier-carrying transactions are in bijection. */
  ghost predicate Matched(w: World, b: Book) {
    && (forall t :: 0 <= t < |b.txs| && b.txs[t].nullifier.Some? ==>
          b.txs[t].input.Some? && Spends(w, b, t, b.txs[t].input.value))
    && (forall n :: 0 <= n < |b.notes| && b.notes[n].status == Spent ==>
          b.notes[n].spentBy.Some? && Spends(w, b, b.notes[n].spentBy.value - 1, n))
  }

  ghost predicate Conserved(b: Book) {
    b.publicBalance + UnspentTotal(b.notes) == b.minted + DEPOSIT * Deposits(b.txs)
  }

  /** The payment proves membership of its input in the tree over the first m leaves. */
  ghost predicate ProvesIn(b: Book, t: int, m: nat)
    requires 0 <= t < |b.txs|
  {
    && b.txs[t].input.Some? && b.txs[t].input.value < m <= |b.leaves|
    && var tree := Commitments(b.leaves)[..m];
       && b.txs[t].root == Some(Root(tree, RETAIL_DEPTH))
       && b.txs[t].siblings == Siblings(tree, b.txs[t].input.value, RETAIL_DEPTH)
  }

  ghost predicate Proven(b: Book) {
    forall t :: 0 <= t < |b.txs| && b.txs[t].kind == Payment ==> exists m: nat :: ProvesIn(b, t, m)
  }

  ghost predicate Books(w: World, b: Book) {
    Aligned(b) && Matched(w, b) && Conserved(b) && Proven(b) && b.publicBalance >= 0
  }

  /** What a running operation relies on when it resumes. */
  ghost predicate OpOk(w: World, b: Book, op: Op) {
    match op
    case Shielding(amounts, index, output, phase) =>
      && index < |amounts|
      && (forall i :: 0 <= i < |amounts| ==> amounts[i] > 0)
      && output.amount == amounts[index]
      && var from := if phase == Inserted then index + 1 else index;
         Sum(amounts[from..]) <= b.publicBalance && |b.leaves| + |amounts| - from <= CAPACITY
    case Paying(input, channel, outputs, root, siblings, nullifier, step) =>
      if step > 4 then |b.leaves| <= CAPACITY
      else
        && |b.leaves| + 2 <= CAPACITY
        && input < |b.notes| && b.notes[input].status == Unspent && b.notes[input].owner == 0
        && Splits(outputs, b.notes[input].amount)
        && nullifier == Nullifier(w, 0, input)
        && root == Root(Commitments(b.leaves), RETAIL_DEPTH)
        && siblings == Siblings(Commitments(b.leaves), input, RETAIL_DEPTH)
    case _ => |b.leaves| <= CAPACITY
  }

  /** Two outputs with different commitments that share out the input. */
  ghost predicate Splits(outputs: seq<Payload>, amount: int) {
    && |outputs| == 2 && outputs[0].amount >= 0 && outputs[1].amount >= 0
    && outputs[0].amount + outputs[1].amount == amount
    && outputs[0].commitment != outputs[1].commitment
  }

  /** At most one operation runs, `activity` says so exactly, and the books balance. */
  ghost predicate Inv(w: World, s: State) {
    && Books(w, s.book) && |s.book.leaves| <= CAPACITY
    && |s.ops| <= 1 && (s.activity <==> |s.ops| == 1)
    && (|s.ops| == 1 ==> OpOk(w, s.book, s.ops[0]))
  }

  // ---------- sums ----------

  lemma {:induction false} UnspentAppend(a: seq<Note>, b: seq<Note>)
    ensures UnspentTotal(a + b) == UnspentTotal(a) + UnspentTotal(b)
  {
    if a == [] {
      assert a + b == b;
    } else {
      UnspentAppend(a[1..], b);
      assert (a + b)[1..] == a[1..] + b;
    }
  }

  lemma {:induction false} UnspentUpdate(notes: seq<Note>, i: nat, n: Note)
    requires i < |notes| && n.amount == notes[i].amount
    ensures UnspentTotal(notes[i := n]) == UnspentTotal(notes)
            - (if notes[i].status == Unspent then notes[i].amount else 0)
                + (if n.status == Unspent then n.amount else 0)
  {
    if i == 0 {
      assert notes[i := n][1..] == notes[1..];
    } else {
      UnspentUpdate(notes[1..], i - 1, n);
      assert notes[i := n][1..] == notes[1..][i - 1 := n];
    }
  }

  lemma {:induction false} DepositsAppend(txs: seq<Tx>, tx: Tx)
    ensures Deposits(txs + [tx]) == Deposits(txs) + if tx.kind == BackgroundShield then 1 else 0
  {
    if txs == [] {
      assert txs + [tx] == [tx];
    } else {
      DepositsAppend(txs[1..], tx);
      assert (txs + [tx])[1..] == txs[1..] + [tx];
    }
  }

  lemma {:induction false} DepositsUpdate(txs: seq<Tx>, i: nat, tx: Tx)
    requires i < |txs| && tx.kind == txs[i].kind
    ensures Deposits(txs[i := tx]) == Deposits(txs)
  {
    if i == 0 {
      assert txs[i := tx][1..] == txs[1..];
    } else {
      DepositsUpdate(txs[1..], i - 1, tx);
      assert txs[i := tx][1..] == txs[1..][i - 1 := tx];
    }
  }

  lemma {:induction false} FindLeafAt(leaves: seq<Leaf>, tx: nat, commitment: Term, i: nat)
    requires i < |leaves| && leaves[i] == Leaf(commitment, tx)
    requires forall j :: 0 <= j < i ==> leaves[j] != Leaf(commitment, tx)
    ensures FindLeaf(leaves, tx, commitment) == i
  {
    if i > 0 {
      FindLeafAt(leaves[1..], tx, commitment, i - 1);
    }
  }

  // ---------- appending ----------

  ghost predicate DistinctCommitments(ps: seq<Payload>) {
    forall i, j :: 0 <= i < j < |ps| ==> ps[i].commitment != ps[j].commitment
  }

  /** The looked-up leaf of each new note is the one pushed for it. */
  lemma AppendAligned(b: Book, tx: Tx, ps: seq<Payload>)
    requires Aligned(b) && tx.id == |b.txs| + 1 && DistinctCommitments(ps)
    requires forall i :: 0 <= i < |ps| ==> ps[i].amount >= 0
    ensures Aligned(AppendNotes(b, tx, ps))
    ensures var b' := AppendNotes(b, tx, ps);
            |b'.notes| == |b.notes| + |ps| && forall n :: 0 <= n < |b.notes| ==> b'.notes[n] == b.notes[n]
    ensures var b' := AppendNotes(b, tx, ps);
            forall n :: |b.notes| <= n < |b'.notes| ==> b'.notes[n].status == Unspent
  {
    hide FindLeaf, LeavesOf, NotesOf;
    var b' := AppendNotes(b, tx, ps);
    forall n | 0 <= n < |b'.notes|
      ensures b'.notes[n].leafIndex == n && b'.notes[n].commitment == b'.leaves[n].commitment && b'.notes[n].amount >= 0
    {
      if n < |b.notes| {
        assert b'.notes[n] == b.notes[n];
      } else {
        var i := n - |b.notes|;
        assert b'.notes[n] == NoteOf(b'.leaves, tx.id, tx.kind, ps[i], i)
            && b'.leaves[n] == Leaf(ps[i].commitment, tx.id);
        FindLeafAt(b'.leaves, tx.id, ps[i].commitment, n);
      }
    }
  }

  function PayloadTotal(ps: seq<Payload>): int {
    if ps == [] then 0 else ps[0].amount + PayloadTotal(ps[1..])
  }

  lemma {:induction false} NewNotesTotal(leaves: seq<Leaf>, tx: nat, kind: Kind, ps: seq<Payload>, index: nat)
    ensures UnspentTotal(NotesOf(leaves, tx, kind, ps, index)) == PayloadTotal(ps)
  {
    if ps != [] {
      NewNotesTotal(leaves, tx, kind, ps[1..], index + 1);
      assert NotesOf(leaves, tx, kind, ps, index)[1..] == NotesOf(leaves, tx, kind, ps[1..], index + 1);
    }
  }

  lemma TwoPayloads(ps: seq<Payload>)
    requires |ps| == 2
    ensures PayloadTotal(ps) == ps[0].amount + ps[1].amount
  {
    assert PayloadTotal(ps[1..]) == ps[1].amount + PayloadTotal(ps[1..][1..]);
  }

  lemma AppendTotal(b: Book, tx: Tx, ps: seq<Payload>)
    ensures UnspentTotal(AppendNotes(b, tx, ps).notes) == UnspentTotal(b.notes) + PayloadTotal(ps)
    ensures Deposits(AppendNotes(b, tx, ps).txs) == Deposits(b.txs) + if tx.kind == BackgroundShield then 1 else 0
  {
    var leaves := b.leaves + LeavesOf(tx.id, ps);
    UnspentAppend(b.notes, NotesOf(leaves, tx.id, tx.kind, ps, 0));
    NewNotesTotal(leaves, tx.id, tx.kind, ps, 0);
    DepositsAppend(b.txs, tx);
  }

  /** Appending leaves keeps every earlier membership proof. */
  lemma ProvenGrows(b: Book, b': Book, t: int)
    requires 0 <= t < |b.txs| <= |b'.txs| && |b.leaves| <= |b'.leaves| && b.leaves == b'.leaves[..|b.leaves|]
    requires b'.txs[t].input == b.txs[t].input && b'.txs[t].root == b.txs[t].root
             && b'.txs[t].siblings == b.txs[t].siblings
    requires exists m: nat :: ProvesIn(b, t, m)
    ensures exists m: nat :: ProvesIn(b', t, m)
  {
    var m: nat :| ProvesIn(b, t, m);
    assert Commitments(b.leaves)[..m] == Commitments(b'.leaves)[..m];
    assert ProvesIn(b', t, m);
  }

  /** A deposit: one new note, no nullifier. */
  lemma DepositBooks(w: World, b: Book, kind: Kind, p: Payload)
    requires Books(w, b) && p.amount >= 0 && (kind == Shield || kind == BackgroundShield)
    ensures var b' := AppendNotes(b, PlainTx(b, kind), [p]);
            && Aligned(b') && Matched(w, b') && Proven(b') && |b'.leaves| == |b.leaves| + 1
            && UnspentTotal(b'.notes) == UnspentTotal(b.notes) + p.amount
            && Deposits(b'.txs) == Deposits(b.txs) + if kind == BackgroundShield then 1 else 0
  {
    var tx := PlainTx(b, kind);
    var b' := AppendNotes(b, tx, [p]);
    AppendAligned(b, tx, [p]);
    AppendTotal(b, tx, [p]);
    forall t | 0 <= t < |b'.txs| && b'.txs[t].kind == Payment ensures exists m: nat :: ProvesIn(b', t, m) {
      ProvenGrows(b, b', t);
    }
  }

  /** A payment spends one unspent note and creates its two outputs. */
  lemma PayBooks(w: World, b: Book, tx: Tx, input: nat, outputs: seq<Payload>)
    requires Books(w, b) && input < |b.notes| && b.notes[input].status == Unspent
             && Splits(outputs, b.notes[input].amount)
    requires tx.id == |b.txs| + 1 && tx.input == Some(input)
             && tx.nullifier == Some(Nullifier(w, b.notes[input].owner, input))
    requires tx.kind == BackgroundPayment || (tx.kind == Payment && PathOf(b, tx, input))
    ensures Books(w, Pay(b, tx, input, outputs)) && |Pay(b, tx, input, outputs).leaves| == |b.leaves| + 2
  {
    var mid := AppendNotes(b, tx, outputs);
    var b' := Pay(b, tx, input, outputs);
    AppendAligned(b, tx, outputs);
    AppendTotal(b, tx, outputs);
    TwoPayloads(outputs);
    UnspentUpdate(mid.notes, input, b'.notes[input]);
    PayMatched(w, b, tx, input, outputs);
    PayProven(b, tx, input, outputs);
  }

  ghost predicate PathOf(b: Book, tx: Tx, input: nat) {
    var tree := Commitments(b.leaves);
    tx.root == Some(Root(tree, RETAIL_DEPTH)) && tx.siblings == Siblings(tree, input, RETAIL_DEPTH)
  }

  lemma PayMatched(w: World, b: Book, tx: Tx, input: nat, outputs: seq<Payload>)
    requires Aligned(b) && Matched(w, b) && input < |b.notes| && b.notes[input].status == Unspent
    requires tx.id == |b.txs| + 1 && tx.input == Some(input)
             && tx.nullifier == Some(Nullifier(w, b.notes[input].owner, input))
    ensures Matched(w, Pay(b, tx, input, outputs))
  {
    var b' := Pay(b, tx, input, outputs);
    forall t | 0 <= t < |b'.txs| && b'.txs[t].nullifier.Some?
      ensures b'.txs[t].input.Some? && Spends(w, b', t, b'.txs[t].input.value)
    {
      if t < |b.txs| {
        assert b'.txs[t] == b.txs[t];
        assert Spends(w, b, t, b.txs[t].input.value);
      }
    }
    forall n | 0 <= n < |b'.notes| && b'.notes[n].status == Spent
      ensures b'.notes[n].spentBy.Some? && Spends(w, b', b'.notes[n].spentBy.value - 1, n)
    {
      if n != input && n < |b.notes| {
        assert Spends(w, b, b.notes[n].spentBy.value - 1, n);
      }
    }
  }

  lemma PayProven(b: Book, tx: Tx, input: nat, outputs: seq<Payload>)
    requires Aligned(b) && Proven(b) && input < |b.notes| && tx.input == Some(input)
    requires tx.kind == Payment ==> PathOf(b, tx, input)
    ensures Proven(Pay(b, tx, input, outputs))
  {
    var b' := Pay(b, tx, input, outputs);
    forall t | 0 <= t < |b'.txs| && b'.txs[t].kind == Payment ensures exists m: nat :: ProvesIn(b', t, m) {
      if t < |b.txs| {
        ProvenGrows(b, b', t);
      } else {
        assert Commitments(b'.leaves)[..|b.leaves|] == Commitments(b.leaves);
        assert ProvesIn(b', t, |b.leaves|);
      }
    }
  }

  /** A transaction without leaves or nullifier, possibly with one note marked discovered. */
  lemma NoticeBooks(w: World, b: Book, b': Book)
    requires Books(w, b) && b'.leaves == b.leaves && |b'.notes| == |b.notes| && |b'.txs| == |b.txs| + 1
    requires forall n :: 0 <= n < |b.notes| ==>
               b'.notes[n] == b.notes[n] || b'.notes[n] == b.notes[n].(discovered := true)
    requires forall t :: 0 <= t < |b.txs| ==> b'.txs[t] == b.txs[t] || b'.txs[t] == b.txs[t].(scanned := true)
    requires b'.txs[|b.txs|].nullifier.None? && b'.txs[|b.txs|].kind != Payment && b'.txs[|b.txs|].id == |b.txs| + 1
    ensures Aligned(b') && Matched(w, b') && Proven(b')
  {
    forall t | 0 <= t < |b'.txs| && b'.txs[t].nullifier.Some?
      ensures b'.txs[t].input.Some? && Spends(w, b', t, b'.txs[t].input.value)
    {
      assert Spends(w, b, t, b.txs[t].input.value);
    }
    forall n | 0 <= n < |b'.notes| && b'.notes[n].status == Spent
      ensures b'.notes[n].spentBy.Some? && Spends(w, b', b'.notes[n].spentBy.value - 1, n)
    {
      assert Spends(w, b, b.notes[n].spentBy.value - 1, n);
    }
    forall t | 0 <= t < |b'.txs| && b'.txs[t].kind == Payment ensures exists m: nat :: ProvesIn(b', t, m) {
      ProvenGrows(b, b', t);
    }
  }
}
