/** The Go retail session: the action gate, registration and seeding, note selection, payment bookkeeping and
    discovery by scanning. Each action is split where the source releases its mutex; the external steps (chain,
    prover, relayer) succeed or fail as the events of a run say. */
module RetailSession {
  import opened Wrappers
  import opened Hash

  const PARTIES: nat := 8
  const SEED: int := 100
  const SEED_TOKEN: int := 0

  predicate Controllable(party: nat) {
    party < 3
  }

  // ---------- notes ----------

  /** `id` is the note's sequence number. */
  datatype Note = Note(id: nat, owner: nat, amount: int, tokenId: int, salt: int, commitment: Term, spent: bool,
                       discovered: bool)

  /** A decrypted tag payload. */
  datatype Payload = Payload(salt: int, amount: int, tokenId: int)

  predicate Spendable(n: Note, owner: nat) {
    n.owner == owner && !n.spent && n.discovered && n.amount > 0
  }

  function BalanceOf(notes: seq<Note>, owner: nat): int {
    if notes == [] then 0
    else (if Spendable(notes[0], owner) then notes[0].amount else 0) + BalanceOf(notes[1..], owner)
  }

  function PendingOf(notes: seq<Note>, owner: nat): int {
    if notes == [] then 0
    else (if notes[0].owner == owner && !notes[0].spent && !notes[0].discovered then notes[0].amount else 0)
         + PendingOf(notes[1..], owner)
  }

  function Commit(publicKey: nat, p: Payload): Term {
    Hash4(Num(publicKey), Num(p.salt), Num(p.amount), Num(p.tokenId))
  }

  /** `addNote` */
  function AddNote(notes: seq<Note>, seqNo: nat, owner: nat, amount: int, tokenId: int, salt: int, commitment: Term,
                   discovered: bool): seq<Note> {
    notes + [Note(seqNo + 1, owner, amount, tokenId, salt, commitment, false, discovered)]
  }

  /** The salts and commitments of a payment's two outputs, fixed when it is proved. */
  datatype Outputs = Outputs(changeSalt: int, paySalt: int, changeCommitment: Term, payCommitment: Term)

  /** The note list after a payment from note n is booked. */
  function AfterPayment(notes: seq<Note>, seqNo: nat, n: nat, recipient: nat, amount: int, o: Outputs): seq<Note>
    requires n < |notes|
  {
    var input := notes[n];
    var change := input.amount - amount;
    var spent := notes[n := input.(spent := true)];
    var kept := if change > 0
                then AddNote(spent, seqNo, input.owner, change, input.tokenId, o.changeSalt, o.changeCommitment, true)
                else spent;
    AddNote(kept, if change > 0 then seqNo + 1 else seqNo, recipient, amount, input.tokenId, o.paySalt,
            o.payCommitment, false)
  }

  function NotesAdded(input: Note, amount: int): nat {
    if input.amount > amount then 2 else 1
  }

  /** A smallest note of the owner that covers the amount: what the selection loop over the sorted notes finds.
      The sort is not stable, so which one among equals is left open. */
  predicate SmallestSufficient(notes: seq<Note>, owner: nat, amount: int, n: nat) {
    && n < |notes| && Spendable(notes[n], owner) && notes[n].amount >= amount
    && forall j :: 0 <= j < |notes| && Spendable(notes[j], owner) && notes[j].amount >= amount ==>
         notes[n].amount <= notes[j].amount
  }

  predicate NoneSufficient(notes: seq<Note>, owner: nat, amount: int) {
    forall j :: 0 <= j < |notes| && Spendable(notes[j], owner) ==> notes[j].amount < amount
  }

  /** The first note with a commitment, or |notes|. */
  function FirstMatch(notes: seq<Note>, c: Term): (i: nat)
    ensures i <= |notes| && (i < |notes| ==> notes[i].commitment == c)
    ensures forall j :: 0 <= j < i ==> notes[j].commitment != c
  {
    if notes == [] || notes[0].commitment == c then 0 else 1 + FirstMatch(notes[1..], c)
  }

  /** Note i is the first one with the commitment of a payload under a public key. */
  ghost predicate Matches(notes: seq<Note>, key: nat, p: Payload, i: nat) {
    && i < |notes| && notes[i].commitment == Hash4(Num(key), Num(p.salt), Num(p.amount), Num(p.tokenId))
    && forall j :: 0 <= j < i ==> notes[j].commitment != notes[i].commitment
  }

  /** What one decrypted tag does to the notes of a session that scans with a public key. */
  function Discover(notes: seq<Note>, publicKey: nat, p: Payload): seq<Note> {
    var i := FirstMatch(notes, Commit(publicKey, p));
    if i < |notes| && !notes[i].discovered then notes[i := notes[i].(discovered := true, salt := p.salt)] else notes
  }

  // ---------- state ----------

  /** Spend keys by party: the local key pair, what the registry contract holds, and what was read back from it.
      Fresh keys are drawn from a supply of distinct values. */
  datatype Keys = Keys(local: seq<Option<nat>>, chain: seq<Option<nat>>, known: seq<Option<nat>>, next: nat)

  /** The notes, and three histories: the notes nullified on the chain, those among them whose payment then failed
      before it was booked, and the value seeded. */
  datatype Book = Book(notes: seq<Note>, noteSeq: nat, nullified: set<nat>, lost: set<nat>, seeded: int)

  datatype Preview = Preview(id: nat, sender: int, recipient: nat)

  /** A running action between two sections under the mutex, with its locals. */
  datatype Op =
    | CheckingRegistered
    | MakingKeys(party: nat)
    | Submitting(party: nat)
    | Seeding(party: nat)
    | ReadingPreview(requested: Option<nat>)
    | Publishing(preview: Preview)
    | ReadingSender(recipient: nat, amount: int)
    | CheckingPayment(acting: int, recipient: nat, amount: int)
    | ReadingChannel(sender: nat, recipient: nat, amount: int)
    | Selecting(sender: nat, recipient: nat, amount: int)
    | Proving(sender: nat, recipient: nat, amount: int, input: nat)
    | Tagging(sender: nat, recipient: nat, amount: int, input: nat, outputs: Outputs)
    | ReadingScanner
    | CheckingScan(acting: int)
    | Scanning(scanner: nat)

  datatype State = State(book: Book, keys: Keys, channels: set<(int, nat)>, preview: Option<Preview>, previewSeq: nat,
                         previews: seq<Preview>, registered: bool, actor: int, busy: bool, ops: seq<Op>)

  function Blank(): seq<Option<nat>> {
    seq(PARTIES, (i: nat) => None)
  }

  function Initial(): State {
    State(Book([], 0, {}, {}, 0), Keys(Blank(), Blank(), Blank(), 0), {}, None, 0, [], false, -1, false, [])
  }

  /** How the step that an action waits for ends. */
  datatype Event =
    | Fails
    | Succeeds
    | MinedUnread
    | Deposited(salt: int)
    | Selected(note: nat)
    | Mined(changeSalt: int, paySalt: int)
    | Decrypted(payload: Option<Payload>)

  datatype Action =
    | Start(op: Op)
    | SetActor(party: nat)
    | StartPreview(recipient: nat)
    | FinishPreview(index: nat, ok: bool)
    | Advance(index: nat, event: Event)

  /** The first section of an action that claims the gate. */
  predicate Entry(op: Op) {
    op.CheckingRegistered? || op.ReadingPreview? || op.ReadingSender? || op.ReadingScanner?
  }

  // ---------- one section ----------

  /** The state after a section and, if the action goes on, what it waits for next. */
  datatype Segment = Segment(s: State, rest: Option<Op>)

  function Done(s: State): Segment {
    Segment(s, None)
  }

  function KeyOf(keys: seq<Option<nat>>, party: nat): nat {
    if party < |keys| && keys[party].Some? then keys[party].value else 0
  }

  function RegistrationStep(s: State, op: Op, e: Event): Segment {
    var k := s.keys;
    match op
    case CheckingRegistered => if s.registered || e.Fails? then Done(s) else Segment(s, Some(MakingKeys(0)))
    case MakingKeys(j) =>
      if e.Fails? || j >= |k.local| then Done(s)
      else
        Segment(s.(keys := k.(local := k.local[j := Some(k.next)], next := k.next + 1)),
                Some(if j + 1 < PARTIES then MakingKeys(j + 1) else Submitting(0)))
    case Submitting(j) =>
      if e.Fails? || j >= |k.local| || j >= |k.chain| || j >= |k.known| || k.chain[j].Some? || k.local[j].None?
      then Done(s)
      else if e.MinedUnread? then Done(s.(keys := k.(chain := k.chain[j := k.local[j]])))
      else
        Segment(s.(keys := k.(chain := k.chain[j := k.local[j]], known := k.known[j := k.local[j]])),
                Some(if j + 1 < PARTIES then Submitting(j + 1) else Seeding(0)))
    case Seeding(j) =>
      if j >= PARTIES then Done(s.(registered := true))
      else if !Controllable(j) then Segment(s, Some(Seeding(j + 1)))
      else if !e.Deposited? then Done(s)
      else Segment(s.(book := Seed(s.book, j, KeyOf(k.local, j), e.salt)), Some(Seeding(j + 1)))
    case _ => Done(s)
  }

  /** One deposit of `seedControllableParties`. */
  function Seed(b: Book, party: nat, key: nat, salt: int): Book {
    b.(notes := AddNote(b.notes, b.noteSeq, party, SEED, SEED_TOKEN, salt,
                        Commit(key, Payload(salt, SEED, SEED_TOKEN)), true),
       noteSeq := b.noteSeq + 1, seeded := b.seeded + SEED)
  }

  function ChannelStep(s: State, op: Op, e: Event): Segment {
    match op
    case ReadingPreview(requested) =>
      if s.preview.None? || e.Fails? || (requested.Some? && requested.value != s.preview.value.id) then Done(s)
      else Segment(s, Some(Publishing(s.preview.value)))
    case Publishing(p) =>
      if e.Fails? then Done(s) else Done(s.(channels := s.channels + {(p.sender, p.recipient)}, preview := None))
    case _ => Done(s)
  }

  predicate GoodPayment(s: State, sender: int, recipient: nat, amount: int) {
    && s.registered && 0 <= sender < PARTIES && recipient < PARTIES && sender != recipient
    && Controllable(recipient) && amount > 0
  }

  function MakeOutputs(s: State, sender: nat, recipient: nat, amount: int, input: Note, changeSalt: int,
                       paySalt: int): Outputs {
    Outputs(changeSalt, paySalt,
            Commit(KeyOf(s.keys.local, sender), Payload(changeSalt, input.amount - amount, input.tokenId)),
            Commit(KeyOf(s.keys.known, recipient), Payload(paySalt, amount, input.tokenId)))
  }

  function PaymentStep(s: State, op: Op, e: Event): Segment {
    var b := s.book;
    match op
    case ReadingSender(recipient, amount) => Segment(s, Some(CheckingPayment(s.actor, recipient, amount)))
    case CheckingPayment(sender, recipient, amount) =>
      if !GoodPayment(s, sender, recipient, amount) then Done(s)
      else Segment(s, Some(ReadingChannel(sender, recipient, amount)))
    case ReadingChannel(sender, recipient, amount) =>
      if (sender, recipient) !in s.channels then Done(s) else Segment(s, Some(Selecting(sender, recipient, amount)))
    case Selecting(sender, recipient, amount) =>
      if NoneSufficient(b.notes, sender, amount) then Done(s)
      else if e.Selected? && SmallestSufficient(b.notes, sender, amount, e.note)
      then Segment(s, Some(Proving(sender, recipient, amount, e.note)))
      else Segment(s, Some(op))
    case Proving(sender, recipient, amount, input) =>
      if !(e.Mined? || e.MinedUnread?) || input >= |b.notes| || b.notes[input].id in b.nullified then Done(s)
      else if e.MinedUnread?
      then Done(s.(book := b.(nullified := b.nullified + {b.notes[input].id}, lost := b.lost + {b.notes[input].id})))
      else
        Segment(s.(book := b.(nullified := b.nullified + {b.notes[input].id})),
                Some(Tagging(sender, recipient, amount, input,
                             MakeOutputs(s, sender, recipient, amount, b.notes[input], e.changeSalt, e.paySalt))))
    case Tagging(sender, recipient, amount, input, outputs) =>
      if input >= |b.notes| then Done(s)
      else if !e.Succeeds? then Done(s.(book := b.(lost := b.lost + {b.notes[input].id})))
      else Done(s.(book := BookPayment(b, input, recipient, amount, outputs)))
    case _ => Done(s)
  }

  function BookPayment(b: Book, input: nat, recipient: nat, amount: int, outputs: Outputs): Book
    requires input < |b.notes|
  {
    b.(notes := AfterPayment(b.notes, b.noteSeq, input, recipient, amount, outputs),
       noteSeq := b.noteSeq + NotesAdded(b.notes[input], amount))
  }

  function ScanStep(s: State, op: Op, e: Event): Segment {
    match op
    case ReadingScanner => Segment(s, Some(CheckingScan(s.actor)))
    case CheckingScan(scanner) =>
      if !s.registered || scanner < 0 || scanner >= PARTIES || e.Fails? then Done(s)
      else Segment(s, Some(Scanning(scanner)))
    case Scanning(scanner) =>
      if !e.Decrypted? then Done(s)
      else if e.payload.None? then Segment(s, Some(op))
      else
        var notes := Discover(s.book.notes, KeyOf(s.keys.known, scanner), e.payload.value);
        Segment(s.(book := s.book.(notes := notes)), Some(op))
    case _ => Done(s)
  }

  function Step(s: State, op: Op, e: Event): Segment {
    if op.CheckingRegistered? || op.MakingKeys? || op.Submitting? || op.Seeding? then RegistrationStep(s, op, e)
    else if op.ReadingPreview? || op.Publishing? then ChannelStep(s, op, e)
    else if op.ReadingScanner? || op.CheckingScan? || op.Scanning? then ScanStep(s, op, e)
    else PaymentStep(s, op, e)
  }

  // ---------- runs ----------

  /** `previewChannel` after its computation. It does not claim the gate. */
  predicate GoodPreview(s: State, p: Preview) {
    && s.registered && 0 <= p.sender < PARTIES && p.recipient < PARTIES && p.sender != p.recipient
    && p.recipient < |s.keys.known| && s.keys.known[p.recipient].Some?
  }

  function Next(s: State, a: Action): State {
    match a
    case Start(op) => if s.busy || !Entry(op) then s else s.(busy := true, ops := s.ops + [op])
    case SetActor(party) =>
      if s.busy || party >= PARTIES || !Controllable(party) || party >= |s.keys.known| || s.keys.known[party].None?
      then s
      else s.(actor := party)
    case StartPreview(recipient) =>
      if s.busy then s else s.(previews := s.previews + [Preview(0, s.actor, recipient)])
    case FinishPreview(j, ok) =>
      if j >= |s.previews| then s
      else
        var p, rest := s.previews[j], s.previews[..j] + s.previews[j + 1..];
        if !ok || !GoodPreview(s, p) then s.(previews := rest)
        else s.(previews := rest, previewSeq := s.previewSeq + 1, preview := Some(p.(id := s.previewSeq + 1)))
    case Advance(i, e) =>
      if i >= |s.ops| then s
      else
        var seg := Step(s, s.ops[i], e);
        if seg.rest.Some? then seg.s.(ops := s.ops[i := seg.rest.value])
        else seg.s.(ops := s.ops[..i] + s.ops[i + 1..], busy := false)
  }

  function Run(actions: seq<Action>): State
    decreases |actions|
  {
    if actions == [] then Initial() else Next(Run(actions[..|actions| - 1]), actions[|actions| - 1])
  }
}
