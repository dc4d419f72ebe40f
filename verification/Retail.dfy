/** The Retail note ledger as the engine runs it: each action is split at its yields, running operations
    are kept with their local variables, and the background timer may fire at every yield. */
module Retail {
  import opened Wrappers
  import opened Amounts
  import opened Hash
  import opened Merkle

  const CAPACITY: nat := 256
  const DEPOSIT: int := 100

  /** Spend keys of the ten registered parties. Party 0 is the visitor. */
  datatype World = World(publicKey: nat -> int, secretKey: nat -> int)

  datatype Status = Unspent | Spent

  datatype Payload = Payload(owner: nat, amount: int, salt: nat, commitment: Term)

  datatype Note = Note(owner: nat, amount: int, salt: nat, commitment: Term, leafIndex: int, sourceTx: nat,
                       status: Status, spentBy: Option<nat>, discovered: bool)

  datatype Leaf = Leaf(commitment: Term, sourceTx: nat)

  datatype Kind = MintCash | Shield | Payment | ConfigureTags | Scan | BackgroundShield | BackgroundPayment

  /** `input`, `nullifier`, `root` and `siblings` are set on payments only. Transaction ids are ordinals. */
  datatype Tx = Tx(id: nat, kind: Kind, input: Option<nat>, nullifier: Option<Term>, root: Option<Term>,
                   siblings: seq<Term>, firstOutput: nat, scanned: bool)

  datatype Channel = Channel(id: nat, recipient: nat)

  datatype ShieldPhase = Derive | Commit | Inserted

  /** A running operation between two yields, with the locals it will use when it resumes. */
  datatype Op =
    | Shielding(amounts: seq<int>, index: nat, output: Payload, phase: ShieldPhase)
    | OpeningChannel(recipient: nat, channelStep: nat)
    | Paying(input: nat, channel: Channel, outputs: seq<Payload>, root: Term, siblings: seq<Term>, nullifier: Term,
             paymentStep: nat)
    | Scanning(tx: nat, scanStep: nat)

  /** Balances, notes (named by their position), leaves and transactions; `minted` is a history variable. */
  datatype Book = Book(publicBalance: int, minted: int, notes: seq<Note>, leaves: seq<Leaf>, txs: seq<Tx>)

  /** Salts are drawn from a supply of distinct values, and `nextSalt` is the first unused one. */
  datatype State = State(book: Book, channels: seq<Channel>, activity: bool, ops: seq<Op>, traffic: bool, nextSalt: nat)

  datatype Action =
    | StartMint(amount: int)
    | StartShield(total: int, amounts: seq<int>)
    | StartChannel(recipient: nat)
    | StartPayment(channelId: Option<nat>, noteId: Option<nat>, amount: int)
    | StartScan(txId: Option<nat>)
    | Resume(op: nat)
    | SetTraffic(on: bool)
    | Tick

  const INITIAL := State(Book(0, 0, [], [], []), [], false, [], false, 0)

  // ---------- small pieces ----------

  predicate Amount(n: int) {
    0 < n <= MAX_SAFE
  }

  function Sum(xs: seq<int>): int {
    if xs == [] then 0 else xs[0] + Sum(xs[1..])
  }

  /** `validateRetailShieldPlan` */
  predicate GoodShieldPlan(total: int, amounts: seq<int>, publicBalance: int) {
    && 1 <= |amounts| <= 4
    && Amount(total)
    && (forall i :: 0 <= i < |amounts| ==> Amount(amounts[i]))
    && Sum(amounts) <= MAX_SAFE && Sum(amounts) == total && total <= publicBalance
  }

  function NoteCommitment(w: World, owner: nat, salt: nat, amount: int): Term {
    Hash4(Num(w.publicKey(owner)), Num(salt), Num(amount), Num(0))
  }

  function MakePayload(w: World, owner: nat, amount: int, salt: nat): Payload {
    Payload(owner, amount, salt, NoteCommitment(w, owner, salt, amount))
  }

  /** `poseidon([sk, leafIndex])` */
  function Nullifier(w: World, owner: nat, leafIndex: int): Term {
    Hash2(Num(w.secretKey(owner)), Num(leafIndex))
  }

  predicate Available(n: Note, owner: nat) {
    n.owner == owner && n.status == Unspent && n.discovered && n.amount > 0
  }

  function FirstAvailable(notes: seq<Note>, owner: nat, from: nat): (r: Option<nat>)
    requires from <= |notes|
    ensures r.Some? ==> from <= r.value < |notes| && Available(notes[r.value], owner)
    ensures forall i :: from <= i < (if r.Some? then r.value else |notes|) ==> !Available(notes[i], owner)
    decreases |notes| - from
  {
    if from == |notes| then None
    else if Available(notes[from], owner) then Some(from)
    else FirstAvailable(notes, owner, from + 1)
  }

  /** The smallest available note of party 0 that covers the amount, the earliest among equals:
      what sorting by amount and taking the first sufficient one selects. */
  function SmallestSufficient(notes: seq<Note>, amount: int): (r: Option<nat>)
    ensures r.Some? ==> r.value < |notes| && Available(notes[r.value], 0) && notes[r.value].amount >= amount
    ensures r.Some? ==> forall i :: 0 <= i < |notes| && Available(notes[i], 0) && notes[i].amount >= amount ==>
                          notes[r.value].amount <= notes[i].amount
    ensures r.None? ==> forall i :: 0 <= i < |notes| && Available(notes[i], 0) ==> notes[i].amount < amount
  {
    if notes == [] then None
    else
      var n := |notes| - 1;
      var best := SmallestSufficient(notes[..n], amount);
      if Available(notes[n], 0) && notes[n].amount >= amount
         && (best.None? || notes[n].amount < notes[best.value].amount)
      then Some(n) else best
  }

  function SelectInput(notes: seq<Note>, noteId: Option<nat>, amount: int): (r: Option<nat>)
    ensures r.Some? ==> r.value < |notes| && Available(notes[r.value], 0) && notes[r.value].amount >= amount
  {
    match noteId
    case None => SmallestSufficient(notes, amount)
    case Some(n) => if n < |notes| && Available(notes[n], 0) && notes[n].amount >= amount then Some(n) else None
  }

  function FindChannel(channels: seq<Channel>, id: nat): (r: Option<Channel>) {
    if channels == [] then None else if channels[0].id == id then Some(channels[0]) else FindChannel(channels[1..], id)
  }

  function SelectChannel(channels: seq<Channel>, id: Option<nat>): Option<Channel> {
    match id
    case Some(i) => FindChannel(channels, i)
    case None => if channels == [] then None else Some(channels[|channels| - 1])
  }

  predicate HasChannel(channels: seq<Channel>, recipient: nat) {
    exists i :: 0 <= i < |channels| && channels[i].recipient == recipient
  }

  function Commitments(leaves: seq<Leaf>): (c: seq<Term>)
    ensures |c| == |leaves| && forall i :: 0 <= i < |c| ==> c[i] == leaves[i].commitment
  {
    if leaves == [] then [] else [leaves[0].commitment] + Commitments(leaves[1..])
  }

  // ---------- appending notes ----------

  function LeavesOf(tx: nat, payloads: seq<Payload>): (r: seq<Leaf>)
    ensures |r| == |payloads| && forall i :: 0 <= i < |r| ==> r[i] == Leaf(payloads[i].commitment, tx)
  {
    if payloads == [] then [] else [Leaf(payloads[0].commitment, tx)] + LeavesOf(tx, payloads[1..])
  }

  /** `leaves.find(...)` as an index, or -1. */
  function FindLeaf(leaves: seq<Leaf>, tx: nat, commitment: Term): int {
    if leaves == [] then -1
    else if leaves[0] == Leaf(commitment, tx) then 0
    else
      var i := FindLeaf(leaves[1..], tx, commitment);
      if i < 0 then -1 else i + 1
  }

  function NoteOf(leaves: seq<Leaf>, tx: nat, kind: Kind, p: Payload, index: nat): Note {
    var background := kind == BackgroundShield || kind == BackgroundPayment;
    Note(p.owner, p.amount, p.salt, p.commitment, FindLeaf(leaves, tx, p.commitment), tx, Unspent, None,
         background || kind == Shield || index == 1)
  }

  function NotesOf(leaves: seq<Leaf>, tx: nat, kind: Kind, payloads: seq<Payload>, index: nat): (r: seq<Note>)
    ensures |r| == |payloads| && forall i :: 0 <= i < |r| ==> r[i] == NoteOf(leaves, tx, kind, payloads[i], index + i)
  {
    if payloads == [] then []
    else [NoteOf(leaves, tx, kind, payloads[0], index)] + NotesOf(leaves, tx, kind, payloads[1..], index + 1)
  }

  /** `appendNotes`: a transaction, its leaves, and one note per leaf. */
  function AppendNotes(b: Book, tx: Tx, payloads: seq<Payload>): Book {
    var leaves := b.leaves + LeavesOf(tx.id, payloads);
    b.(leaves := leaves, notes := b.notes + NotesOf(leaves, tx.id, tx.kind, payloads, 0), txs := b.txs + [tx])
  }

  function PlainTx(b: Book, kind: Kind): Tx {
    Tx(|b.txs| + 1, kind, None, None, None, [], |b.notes|, false)
  }

  function AddTx(b: Book, kind: Kind): Book {
    b.(txs := b.txs + [PlainTx(b, kind)])
  }

  function Spend(b: Book, n: nat, tx: nat): Book
    requires n < |b.notes|
  {
    b.(notes := b.notes[n := b.notes[n].(status := Spent, spentBy := Some(tx))])
  }

  /** Append the outputs of a payment and mark its input spent. */
  function Pay(b: Book, tx: Tx, input: nat, outputs: seq<Payload>): Book
    requires input < |b.notes|
  {
    Spend(AppendNotes(b, tx, outputs), input, tx.id)
  }

  predicate NullifierPublished(b: Book, nullifier: Term) {
    exists i :: 0 <= i < |b.txs| && b.txs[i].nullifier == Some(nullifier)
  }

  // ---------- operations up to their next yield ----------

  /** The state after a segment and, if the operation yielded, what is left of it. */
  datatype Segment = Segment(s: State, rest: Option<Op>)

  function Fails(s: State): Segment {
    Segment(s, None)
  }

  function BeginMint(s: State, amount: int): Segment {
    if !Amount(amount) || s.book.publicBalance + amount > MAX_SAFE then Fails(s)
    else
      var book := AddTx(s.book, MintCash);
      Segment(s.(book := book.(publicBalance := book.publicBalance + amount, minted := book.minted + amount)), None)
  }

  function NextShield(w: World, s: State, amounts: seq<int>, index: nat): Segment
    requires index < |amounts|
  {
    var output := MakePayload(w, 0, amounts[index], s.nextSalt);
    Segment(s.(nextSalt := s.nextSalt + 1), Some(Shielding(amounts, index, output, Derive)))
  }

  function BeginShield(w: World, s: State, total: int, amounts: seq<int>): Segment {
    if !GoodShieldPlan(total, amounts, s.book.publicBalance) || |s.book.leaves| + |amounts| > CAPACITY then Fails(s)
    else NextShield(w, s, amounts, 0)
  }

  function BeginChannel(s: State, recipient: nat): Segment {
    if recipient == 0 || recipient >= 10 || HasChannel(s.channels, recipient) then Fails(s)
    else Segment(s, Some(OpeningChannel(recipient, 0)))
  }

  function BeginPayment(w: World, s: State, channelId: Option<nat>, noteId: Option<nat>, amount: int): Segment {
    var channel := SelectChannel(s.channels, channelId);
    var input := SelectInput(s.book.notes, noteId, amount);
    if channel.None? || !Amount(amount) || input.None? || |s.book.leaves| + 2 > CAPACITY then Fails(s)
    else
      var n := s.book.notes[input.value];
      if n.leafIndex < 0 then Fails(s)
      else
        var outputs := [MakePayload(w, channel.value.recipient, amount, s.nextSalt),
                        MakePayload(w, 0, n.amount - amount, s.nextSalt + 1)];
        var tree := Commitments(s.book.leaves);
        Segment(s.(nextSalt := s.nextSalt + 2),
                Some(Paying(input.value, channel.value, outputs, Root(tree, RETAIL_DEPTH),
                            Siblings(tree, n.leafIndex, RETAIL_DEPTH), Nullifier(w, 0, n.leafIndex), 0)))
  }

  function LastPayment(txs: seq<Tx>): (r: Option<nat>)
    ensures r.Some? ==> r.value < |txs|
  {
    if txs == [] then None
    else if txs[|txs| - 1].kind == Payment then Some(|txs| - 1)
    else LastPayment(txs[..|txs| - 1])
  }

  function SelectPayment(txs: seq<Tx>, txId: Option<nat>): (r: Option<nat>)
    ensures r.Some? ==> r.value < |txs|
  {
    match txId
    case None => LastPayment(txs)
    case Some(id) => if 1 <= id <= |txs| && txs[id - 1].kind == Payment then Some(id - 1) else None
  }

  function BeginScan(s: State, txId: Option<nat>): Segment {
    var t := SelectPayment(s.book.txs, txId);
    if t.None? || s.book.txs[t.value].scanned then Fails(s) else Segment(s, Some(Scanning(t.value, 0)))
  }

  function Begin(w: World, s: State, a: Action): Segment {
    match a
    case StartMint(amount) => BeginMint(s, amount)
    case StartShield(total, amounts) => BeginShield(w, s, total, amounts)
    case StartChannel(recipient) => BeginChannel(s, recipient)
    case StartPayment(channelId, noteId, amount) => BeginPayment(w, s, channelId, noteId, amount)
    case StartScan(txId) => BeginScan(s, txId)
    case _ => Fails(s)
  }

  function ResumeShield(w: World, s: State, op: Op): Segment
    requires op.Shielding?
  {
    match op.phase
    case Derive => Segment(s, Some(op.(phase := Commit)))
    case Commit =>
      var book := AppendNotes(s.book, PlainTx(s.book, Shield), [op.output]);
      Segment(s.(book := book.(publicBalance := book.publicBalance - op.output.amount)), Some(op.(phase := Inserted)))
    case Inserted =>
      if op.index + 1 < |op.amounts| then NextShield(w, s, op.amounts, op.index + 1) else Segment(s, None)
  }

  function ResumeChannel(s: State, op: Op): Segment
    requires op.OpeningChannel?
  {
    if op.channelStep < 2 then Segment(s, Some(op.(channelStep := op.channelStep + 1)))
    else if op.channelStep == 2 then
      Segment(s.(book := AddTx(s.book, ConfigureTags), channels := s.channels + [Channel(|s.channels|, op.recipient)]),
              Some(op.(channelStep := 3)))
    else Segment(s, None)
  }

  function PaymentTx(b: Book, op: Op): Tx
    requires op.Paying?
  {
    Tx(|b.txs| + 1, Payment, Some(op.input), Some(op.nullifier), Some(op.root), op.siblings, |b.notes|, false)
  }

  /** After the fifth yield the double-spend check runs again; then everything is committed at once. */
  function ResumePayment(s: State, op: Op): Segment
    requires op.Paying?
  {
    if op.paymentStep < 4 then Segment(s, Some(op.(paymentStep := op.paymentStep + 1)))
    else if op.paymentStep == 4 then
      if op.input >= |s.book.notes| || s.book.notes[op.input].status != Unspent
         || NullifierPublished(s.book, op.nullifier) then Fails(s)
      else Segment(s.(book := Pay(s.book, PaymentTx(s.book, op), op.input, op.outputs)), Some(op.(paymentStep := 5)))
    else if op.paymentStep == 5 then Segment(s, Some(op.(paymentStep := 6)))
    else Segment(s, None)
  }

  function ResumeScan(s: State, op: Op): Segment
    requires op.Scanning?
  {
    if op.scanStep < 3 then Segment(s, Some(op.(scanStep := op.scanStep + 1)))
    else if op.tx >= |s.book.txs| then Fails(s)
    else
      var n := s.book.txs[op.tx].firstOutput;
      var notes := if n < |s.book.notes| then s.book.notes[n := s.book.notes[n].(discovered := true)] else s.book.notes;
      var book := s.book.(notes := notes, txs := s.book.txs[op.tx := s.book.txs[op.tx].(scanned := true)]);
      Segment(s.(book := AddTx(book, Scan)), None)
  }

  function Continue(w: World, s: State, op: Op): Segment {
    match op
    case Shielding(_, _, _, _) => ResumeShield(w, s, op)
    case OpeningChannel(_, _) => ResumeChannel(s, op)
    case Paying(_, _, _, _, _, _, _) => ResumePayment(s, op)
    case Scanning(_, _) => ResumeScan(s, op)
  }

  // ---------- background traffic ----------

  function BackgroundCount(txs: seq<Tx>): nat {
    if txs == [] then 0
    else
      (if txs[0].kind == BackgroundShield || txs[0].kind == BackgroundPayment then 1 else 0) + BackgroundCount(txs[1..])
  }

  function BackgroundTx(w: World, b: Book, owner: nat, input: nat): Tx
    requires input < |b.notes|
  {
    Tx(|b.txs| + 1, BackgroundPayment, Some(input), Some(Nullifier(w, owner, b.notes[input].leafIndex)), None, [],
       |b.notes|, false)
  }

  /** `retailTraffic`: a no-op while an operation is running. */
  function Traffic(w: World, s: State): State {
    var book := s.book;
    if s.activity then s
    else if |book.leaves| > 253 then s.(traffic := false)
    else
      var count := BackgroundCount(book.txs);
      var owner, recipient := 1 + count % 9, 1 + (count + 2) % 9;
      var input := FirstAvailable(book.notes, owner, 0);
      if input.None? then
        s.(book := BackgroundDeposit(w, book, owner, s.nextSalt), nextSalt := s.nextSalt + 1)
      else
        s.(book := BackgroundPay(w, book, owner, recipient, input.value, s.nextSalt), nextSalt := s.nextSalt + 2)
  }

  function BackgroundDeposit(w: World, b: Book, owner: nat, salt: nat): Book {
    AppendNotes(b, PlainTx(b, BackgroundShield), [MakePayload(w, owner, DEPOSIT, salt)])
  }

  function BackgroundPay(w: World, b: Book, owner: nat, recipient: nat, input: nat, salt: nat): Book
    requires input < |b.notes|
  {
    var held := b.notes[input].amount;
    var amount := if held < 10 then held else 10;
    Pay(b, BackgroundTx(w, b, owner, input), input,
        [MakePayload(w, recipient, amount, salt), MakePayload(w, owner, held - amount, salt + 1)])
  }

  // ---------- runs ----------

  /** One atomic segment. `activity` is the only lock: set at every yield, cleared on every exit. */
  function Next(w: World, s: State, a: Action): State {
    match a
    case Resume(i) =>
      if i >= |s.ops| then s
      else
        var seg := Continue(w, s, s.ops[i]);
        if seg.rest.Some? then seg.s.(ops := s.ops[i := seg.rest.value], activity := true)
        else seg.s.(ops := s.ops[..i] + s.ops[i + 1..], activity := false)
    case SetTraffic(on) => s.(traffic := on)
    case Tick => if s.traffic then Traffic(w, s) else s
    case _ =>
      if s.activity then s
      else
        var seg := Begin(w, s, a);
        if seg.rest.Some? then seg.s.(ops := s.ops + [seg.rest.value], activity := true)
        else seg.s.(activity := false)
  }

  function Run(w: World, actions: seq<Action>): State
    decreases |actions|
  {
    if actions == [] then INITIAL
    else Next(w, Run(w, actions[..|actions| - 1]), actions[|actions| - 1])
  }
}
