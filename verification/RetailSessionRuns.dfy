/** The laws of the retail session over every run of its sections. */
module RetailSessionRuns {
  import opened Wrappers
  import opened RetailSession

  // ---------- sums ----------

  lemma {:induction false} SumsAppend(notes: seq<Note>, n: Note, owner: nat)
    ensures BalanceOf(notes + [n], owner) == BalanceOf(notes, owner) + if Spendable(n, owner) then n.amount else 0
    ensures PendingOf(notes + [n], owner)
         == PendingOf(notes, owner) + if n.owner == owner && !n.spent && !n.discovered then n.amount else 0
  {
    if notes == [] {
      assert notes + [n] == [n];
    } else {
      SumsAppend(notes[1..], n, owner);
      assert (notes + [n])[1..] == notes[1..] + [n];
    }
  }

  lemma {:induction false} SumsUpdate(notes: seq<Note>, i: nat, n: Note, owner: nat)
    requires i < |notes|
    ensures BalanceOf(notes[i := n], owner) == BalanceOf(notes, owner)
            - (if Spendable(notes[i], owner) then notes[i].amount else 0)
                + (if Spendable(n, owner) then n.amount else 0)
    ensures PendingOf(notes[i := n], owner) == PendingOf(notes, owner)
            - (if notes[i].owner == owner && !notes[i].spent && !notes[i].discovered then notes[i].amount else 0)
            + (if n.owner == owner && !n.spent && !n.discovered then n.amount else 0)
  {
    if i == 0 {
      assert notes[i := n][1..] == notes[1..];
    } else {
      SumsUpdate(notes[1..], i - 1, n, owner);
      assert notes[i := n][1..] == notes[1..][i - 1 := n];
    }
  }

  /** Balance plus pending value of the first n parties. */
  function Holdings(notes: seq<Note>, n: nat): int {
    if n == 0 then 0 else Holdings(notes, n - 1) + BalanceOf(notes, n - 1) + PendingOf(notes, n - 1)
  }

  /** A payment moves the amount from the sender's balance to the recipient's pending value, and nobody
      else's holdings change. */
  lemma PaymentMoves(notes: seq<Note>, seqNo: nat, n: nat, recipient: nat, amount: int, o: Outputs, party: nat)
    requires n < |notes| && Spendable(notes[n], notes[n].owner) && 0 < amount <= notes[n].amount
    requires recipient != notes[n].owner
    ensures var after := AfterPayment(notes, seqNo, n, recipient, amount, o);
            && BalanceOf(after, party) == BalanceOf(notes, party) - (if party == notes[n].owner then amount else 0)
            && PendingOf(after, party) == PendingOf(notes, party) + (if party == recipient then amount else 0)
  {
    var input := notes[n];
    var change := input.amount - amount;
    var spent := notes[n := input.(spent := true)];
    SumsUpdate(notes, n, input.(spent := true), party);
    var a := Note(seqNo + 1, input.owner, change, input.tokenId, o.changeSalt, o.changeCommitment, false, true);
    SumsAppend(spent, a, party);
    var kept := if change > 0 then spent + [a] else spent;
    SumsAppend(kept, Note(if change > 0 then seqNo + 2 else seqNo + 1, recipient, amount, input.tokenId, o.paySalt,
                          o.payCommitment, false, false), party);
  }

  /** A complete payment preserves the value that the first `parties` parties hold together. */
  lemma {:induction false} PaymentConserves(notes: seq<Note>, seqNo: nat, n: nat, recipient: nat, amount: int,
                                            o: Outputs, parties: nat)
    requires n < |notes| && Spendable(notes[n], notes[n].owner) && 0 < amount <= notes[n].amount
    requires recipient != notes[n].owner
    ensures Holdings(AfterPayment(notes, seqNo, n, recipient, amount, o), parties)
         == Holdings(notes, parties) - (if notes[n].owner < parties then amount else 0)
            + (if recipient < parties then amount else 0)
  {
    hide AfterPayment;
    if parties > 0 {
      PaymentConserves(notes, seqNo, n, recipient, amount, o, parties - 1);
      PaymentMoves(notes, seqNo, n, recipient, amount, o, parties - 1);
    }
  }

  lemma {:induction false} SeedAdds(notes: seq<Note>, n: Note, parties: nat)
    requires Spendable(n, n.owner)
    ensures Holdings(notes + [n], parties) == Holdings(notes, parties) + if n.owner < parties then n.amount else 0
  {
    if parties > 0 {
      SeedAdds(notes, n, parties - 1);
      SumsAppend(notes, n, parties - 1);
    }
  }

  // ---------- scanning ----------

  ghost predicate OpensUnder(n: Note, publicKey: nat) {
    n.commitment == Commit(publicKey, Payload(n.salt, n.amount, n.tokenId))
  }

  /** What a scan may do to a list of notes: mark undiscovered notes of one key as discovered. */
  ghost predicate OnlyDiscovers(before: seq<Note>, after: seq<Note>, key: nat) {
    |after| == |before|
    && forall i :: 0 <= i < |before| ==>
         after[i] == before[i]
         || (!before[i].discovered && after[i] == before[i].(discovered := true) && OpensUnder(before[i], key))
  }

  /** Notes open under their owners' keys. */
  ghost predicate AllOpen(notes: seq<Note>, known: seq<Option<nat>>) {
    forall i :: 0 <= i < |notes| ==>
      notes[i].owner < |known| && known[notes[i].owner].Some? && OpensUnder(notes[i], known[notes[i].owner].value)
      && notes[i].amount > 0
  }

  lemma DiscoverExact(notes: seq<Note>, known: seq<Option<nat>>, key: nat, p: Payload)
    requires AllOpen(notes, known)
    ensures OnlyDiscovers(notes, Discover(notes, key, p), key)
  {
    var i := FirstMatch(notes, Commit(key, p));
    if i < |notes| && !notes[i].discovered {
      assert OpensUnder(notes[i], known[notes[i].owner].value);
    }
  }

  lemma DiscoverKeepsTotals(notes: seq<Note>, known: seq<Option<nat>>, key: nat, p: Payload, party: nat)
    requires AllOpen(notes, known)
    ensures var after := Discover(notes, key, p);
            && BalanceOf(after, party) + PendingOf(after, party) == BalanceOf(notes, party) + PendingOf(notes, party)
            && BalanceOf(after, party) >= BalanceOf(notes, party)
  {
    var i := FirstMatch(notes, Commit(key, p));
    if i < |notes| && !notes[i].discovered {
      assert OpensUnder(notes[i], known[notes[i].owner].value);
      SumsUpdate(notes, i, notes[i].(discovered := true, salt := p.salt), party);
    }
  }

  lemma {:induction false} DiscoverConserves(notes: seq<Note>, known: seq<Option<nat>>, key: nat, p: Payload,
                                             parties: nat)
    requires AllOpen(notes, known)
    ensures Holdings(Discover(notes, key, p), parties) == Holdings(notes, parties)
  {
    if parties > 0 {
      DiscoverConserves(notes, known, key, p, parties - 1);
      DiscoverKeepsTotals(notes, known, key, p, parties - 1);
    }
  }

  // ---------- the invariant ----------

  /** Ids are distinct and numbered so far; so are the ids the chain has nullified. */
  ghost predicate Numbered(b: Book) {
    && (forall i :: 0 <= i < |b.notes| ==> b.notes[i].id <= b.noteSeq)
    && (forall i, j :: 0 <= i < j < |b.notes| ==> b.notes[i].id != b.notes[j].id)
    && (forall x :: x in b.nullified ==> x <= b.noteSeq)
  }

  /** A note is nullified on the chain exactly when it is spent here, was lost, or is `inFlight`: mined, not yet
      booked. */
  ghost predicate Accounted(b: Book, inFlight: set<nat>) {
    && (forall i :: 0 <= i < |b.notes| ==>
          (b.notes[i].id in b.nullified <==> b.notes[i].spent || b.notes[i].id in b.lost + inFlight))
    && (forall i :: 0 <= i < |b.notes| ==> b.notes[i].spent ==> b.notes[i].id !in b.lost + inFlight)
    && (forall x :: x in b.lost + inFlight ==> exists i :: 0 <= i < |b.notes| && b.notes[i].id == x)
    && b.lost !! inFlight
  }

  ghost predicate BookOk(b: Book, known: seq<Option<nat>>) {
    Numbered(b) && AllOpen(b.notes, known) && Holdings(b.notes, PARTIES) == b.seeded
  }

  ghost predicate Below(ks: seq<Option<nat>>, bound: nat) {
    |ks| == PARTIES && forall i :: 0 <= i < |ks| && ks[i].Some? ==> ks[i].value < bound
  }

  /** Read-back keys are the registry's, registry keys differ from party to party, and registration is in order. */
  ghost predicate KeysOk(k: Keys) {
    && Below(k.local, k.next) && Below(k.chain, k.next) && |k.known| == PARTIES
    && (forall i :: 0 <= i < PARTIES && k.known[i].Some? ==> k.chain[i] == k.known[i])
    && (forall i, j :: 0 <= i < j < PARTIES && k.chain[i].Some? && k.chain[j].Some? ==> k.chain[i] != k.chain[j])
    && (forall i, j :: 0 <= i < j < PARTIES && k.local[i].Some? && k.local[j].Some? ==> k.local[i] != k.local[j])
    && (forall i, j :: 0 <= i < PARTIES && 0 <= j < PARTIES && i != j && k.chain[i].Some? && k.local[j].Some? ==>
          k.chain[i] != k.local[j])
    && (forall i :: 0 <= i < PARTIES && k.chain[i].Some? ==> k.chain[0].Some?)
  }

  /** The first n parties' local keys are registered and read back. */
  ghost predicate Settled(k: Keys, n: nat)
    requires KeysOk(k)
  {
    n <= PARTIES && forall i :: 0 <= i < n ==> k.local[i].Some? && k.known[i] == k.local[i]
  }

  ghost predicate HasKeys(k: Keys, n: nat)
    requires KeysOk(k)
  {
    n <= PARTIES && forall i :: 0 <= i < n ==> k.local[i].Some?
  }

  function InFlight(b: Book, ops: seq<Op>): set<nat> {
    if |ops| == 1 && ops[0].Tagging? && ops[0].input < |b.notes| then {b.notes[ops[0].input].id} else {}
  }

  /** What a running action relies on. */
  ghost predicate OpOk(s: State, op: Op)
    requires KeysOk(s.keys)
  {
    match op
    case MakingKeys(j) => j < PARTIES && HasKeys(s.keys, j) && !s.registered
    case Submitting(j) => j < PARTIES && HasKeys(s.keys, PARTIES) && Settled(s.keys, j) && !s.registered
    case Seeding(j) => j <= PARTIES && Settled(s.keys, PARTIES) && !s.registered
    case ReadingChannel(sender, recipient, amount) => GoodPayment(s, sender, recipient, amount)
    case Selecting(sender, recipient, amount) =>
      GoodPayment(s, sender, recipient, amount) && (sender as int, recipient) in s.channels
    case Proving(sender, recipient, amount, input) =>
      && GoodPayment(s, sender, recipient, amount) && (sender as int, recipient) in s.channels
      && SmallestSufficient(s.book.notes, sender, amount, input)
    case Tagging(sender, recipient, amount, input, outputs) =>
      && GoodPayment(s, sender, recipient, amount) && (sender as int, recipient) in s.channels
      && SmallestSufficient(s.book.notes, sender, amount, input)
      && outputs == MakeOutputs(s, sender, recipient, amount, s.book.notes[input], outputs.changeSalt, outputs.paySalt)
    case Scanning(scanner) => s.registered && scanner < PARTIES
    case _ => true
  }

  /** At most one action runs, and `busy` says so exactly. */
  ghost predicate Gated(s: State) {
    |s.ops| <= 1 && (s.busy <==> |s.ops| == 1)
  }

  ghost predicate Inv(s: State) {
    && KeysOk(s.keys) && BookOk(s.book, s.keys.known) && Accounted(s.book, InFlight(s.book, s.ops)) && Gated(s)
    && (s.registered ==> Settled(s.keys, PARTIES))
    && (|s.ops| == 1 ==> OpOk(s, s.ops[0]))
    && 0 <= s.book.seeded
  }

  // ---------- one section keeps the invariant ----------

  /** The state the run continues in after a section of the running action. */
  function After(seg: Segment): State {
    if seg.rest.Some? then seg.s.(ops := [seg.rest.value], busy := true) else seg.s.(ops := [], busy := false)
  }

  lemma AdvanceIsAfter(s: State, e: Event)
    requires |s.ops| == 1 && s.busy
    ensures var seg := Step(s, s.ops[0], e);
            seg.s.busy && seg.s.ops == s.ops ==> Next(s, Advance(0, e)) == After(seg)
  {
    hide Step;
    var op := s.ops[0];
    assert s.ops == [op];
    assert [op][..0] + [op][1..] == [];
  }

  lemma OpOkIgnoresOps(s: State, s': State, op: Op)
    requires KeysOk(s.keys) && s' == s.(ops := s'.ops, busy := s'.busy)
    ensures OpOk(s, op) == OpOk(s', op)
  {
  }

  lemma KeysSection(s: State, k: Keys, rest: Option<Op>)
    requires Inv(s) && |s.ops| == 1 && !s.ops[0].Tagging? && !s.registered
    requires KeysOk(k) && (forall i :: 0 <= i < PARTIES && s.keys.known[i].Some? ==> k.known[i] == s.keys.known[i])
    requires rest.Some? ==> OpOk(s.(keys := k), rest.value) && !rest.value.Tagging?
    ensures Inv(After(Segment(s.(keys := k), rest)))
  {
    hide Accounted, Numbered, GoodPayment, SmallestSufficient;
    var s' := After(Segment(s.(keys := k), rest));
    if rest.Some? {
      OpOkIgnoresOps(s.(keys := k), s', rest.value);
    }
  }

  lemma SubmitInv(s: State, j: nat, e: Event)
    requires Inv(s) && s.ops == [Submitting(j)]
    ensures Inv(After(RegistrationStep(s, Submitting(j), e)))
  {
    hide BookOk, Accounted;
    var k := s.keys;
    if e.Fails? || k.chain[j].Some? {
    } else if e.MinedUnread? {
      var k' := k.(chain := k.chain[j := k.local[j]]);
      assert j > 0 ==> k.known[0] == k.local[0];
      assert KeysOk(k');
      KeysSection(s, k', None);
    } else {
      var k' := k.(chain := k.chain[j := k.local[j]], known := k.known[j := k.local[j]]);
      assert j > 0 ==> k.known[0] == k.local[0];
      assert k.known[j].None?;
      assert KeysOk(k');
      KeysSection(s, k', Some(if j + 1 < PARTIES then Submitting(j + 1) else Seeding(0)));
    }
  }

  lemma SeedBook(b: Book, known: seq<Option<nat>>, party: nat, salt: int)
    requires BookOk(b, known) && Accounted(b, {}) && party < |known| <= PARTIES && known[party].Some?
    ensures BookOk(Seed(b, party, known[party].value, salt), known)
            && Accounted(Seed(b, party, known[party].value, salt), {})
  {
    hide Holdings;
    var n := Note(b.noteSeq + 1, party, SEED, SEED_TOKEN, salt,
                  Commit(known[party].value, Payload(salt, SEED, SEED_TOKEN)), false, true);
    SeedAdds(b.notes, n, PARTIES);
    var b' := Seed(b, party, known[party].value, salt);
    assert b'.notes == b.notes + [n];
    forall x | x in b'.lost ensures exists i :: 0 <= i < |b'.notes| && b'.notes[i].id == x {
      var i :| 0 <= i < |b.notes| && b.notes[i].id == x;
      assert b'.notes[i].id == x;
    }
  }

  lemma SeedInv(s: State, j: nat, e: Event)
    requires Inv(s) && s.ops == [Seeding(j)]
    ensures Inv(After(RegistrationStep(s, Seeding(j), e)))
  {
    hide BookOk, Accounted, KeysOk, Seed;
    var seg := RegistrationStep(s, Seeding(j), e);
    if j < PARTIES && Controllable(j) && e.Deposited? {
      assert s.keys.known[j].Some? && KeyOf(s.keys.local, j) == s.keys.known[j].value && |s.keys.known| == PARTIES by {
        SettledParty(s.keys, j);
      }
      SeedBook(s.book, s.keys.known, j, e.salt);
      SeededBook(s.book, j, s.keys.known[j].value, e.salt);
    } else if j < PARTIES {
    }
  }

  lemma SettledParty(k: Keys, j: nat)
    requires KeysOk(k) && Settled(k, PARTIES) && j < PARTIES
    ensures |k.known| == |k.local| == |k.chain| == PARTIES
    ensures k.known[j].Some? && KeyOf(k.local, j) == k.known[j].value == KeyOf(k.known, j) && k.chain[j] == k.known[j]
  {
  }

  lemma SeededBook(b: Book, party: nat, key: nat, salt: int)
    ensures Seed(b, party, key, salt).seeded == b.seeded + SEED
  {
  }

  lemma RegistrationInv(s: State, op: Op, e: Event)
    requires Inv(s) && s.ops == [op]
    requires op.CheckingRegistered? || op.MakingKeys? || op.Submitting? || op.Seeding?
    ensures Inv(After(RegistrationStep(s, op, e)))
  {
    hide BookOk, Accounted, KeysOk, Inv;
    match op
    case CheckingRegistered => StartKeys(s, e);
    case MakingKeys(j) => MakeKeysInv(s, j, e);
    case Submitting(j) => SubmitInv(s, j, e);
    case Seeding(j) => SeedInv(s, j, e);
  }

  lemma StartKeys(s: State, e: Event)
    requires Inv(s) && s.ops == [CheckingRegistered]
    ensures Inv(After(RegistrationStep(s, CheckingRegistered, e)))
  {
    hide BookOk, Accounted;
  }

  lemma MakeKeysInv(s: State, j: nat, e: Event)
    requires Inv(s) && s.ops == [MakingKeys(j)]
    ensures Inv(After(RegistrationStep(s, MakingKeys(j), e)))
  {
    hide BookOk, Accounted;
    if e.Fails? {
    } else {
    }
  }

  lemma ChannelInv(s: State, op: Op, e: Event)
    requires Inv(s) && s.ops == [op] && (op.ReadingPreview? || op.Publishing?)
    ensures Inv(After(ChannelStep(s, op, e)))
  {
    hide BookOk, Accounted, KeysOk;
  }

  // ---------- payments ----------

  /** A mined, unbooked payment's note becomes accounted as in flight, or as lost. */
  lemma MinedAccounts(b: Book, i: nat)
    requires Numbered(b) && Accounted(b, {}) && i < |b.notes| && !b.notes[i].spent && b.notes[i].id !in b.lost
    ensures var b' := b.(nullified := b.nullified + {b.notes[i].id});
            && Numbered(b') && Accounted(b', {b.notes[i].id})
            && Numbered(b'.(lost := b.lost + {b.notes[i].id})) && Accounted(b'.(lost := b.lost + {b.notes[i].id}), {})
  {
    assert forall j :: 0 <= j < |b.notes| && j != i ==> b.notes[j].id != b.notes[i].id;
  }

  lemma LostAccounts(b: Book, x: nat)
    requires Accounted(b, {x})
    ensures Accounted(b.(lost := b.lost + {x}), {})
  {
    assert b.lost + {x} + {} == b.lost + {x};
  }

  /** Booking spends one note and appends unspent ones with the next ids. */
  lemma BookedNotes(b: Book, i: nat, recipient: nat, amount: int, o: Outputs)
    requires i < |b.notes|
    ensures var b' := BookPayment(b, i, recipient, amount, o);
            && |b'.notes| > |b.notes| && b'.noteSeq == b.noteSeq + |b'.notes| - |b.notes|
            && b'.nullified == b.nullified && b'.lost == b.lost
            && (forall j :: 0 <= j < |b.notes| ==>
                  b'.notes[j].id == b.notes[j].id && b'.notes[j].spent == (b.notes[j].spent || j == i))
            && (forall j :: |b.notes| <= j < |b'.notes| ==>
                  b'.notes[j].id == b.noteSeq + 1 + j - |b.notes| && !b'.notes[j].spent)
  {
  }

  lemma BookedAccounts(b: Book, i: nat, recipient: nat, amount: int, o: Outputs)
    requires i < |b.notes| && Numbered(b) && Accounted(b, {b.notes[i].id})
    ensures Numbered(BookPayment(b, i, recipient, amount, o)) && Accounted(BookPayment(b, i, recipient, amount, o), {})
  {
    hide BookPayment;
    var x := b.notes[i].id;
    var b' := BookPayment(b, i, recipient, amount, o);
    BookedNotes(b, i, recipient, amount, o);
    assert x in b.nullified && x !in b.lost;
    assert forall j :: 0 <= j < |b.notes| && j != i ==> b.notes[j].id != x;
    forall y | y in b'.lost ensures exists j :: 0 <= j < |b'.notes| && b'.notes[j].id == y {
      var j :| 0 <= j < |b.notes| && b.notes[j].id == y;
      assert b'.notes[j].id == y;
    }
  }

  lemma BookedOpen(b: Book, known: seq<Option<nat>>, local: seq<Option<nat>>, i: nat, recipient: nat, amount: int,
                   changeSalt: int, paySalt: int, o: Outputs)
    requires AllOpen(b.notes, known) && i < |b.notes| && amount > 0
    requires recipient < |known| && known[recipient].Some?
    requires |local| == |known| && local[b.notes[i].owner] == known[b.notes[i].owner]
    requires o == Outputs(changeSalt, paySalt,
                          Commit(KeyOf(local, b.notes[i].owner),
                                 Payload(changeSalt, b.notes[i].amount - amount, b.notes[i].tokenId)),
                          Commit(KeyOf(known, recipient), Payload(paySalt, amount, b.notes[i].tokenId)))
    ensures AllOpen(BookPayment(b, i, recipient, amount, o).notes, known)
  {
    hide Holdings;
  }

  lemma BookedInv(s: State, op: Op)
    requires Inv(s) && s.ops == [op] && op.Tagging?
    ensures Inv(After(PaymentStep(s, op, Succeeds)))
  {
    hide Holdings, KeysOk, Accounted, Numbered, AllOpen, BookPayment;
    var b, input := s.book, op.input;
    assert InFlight(b, s.ops) == {b.notes[input].id};
    BookedAccounts(b, input, op.recipient, op.amount, op.outputs);
    SettledParty(s.keys, op.sender);
    SettledParty(s.keys, op.recipient);
    BookedOpen(b, s.keys.known, s.keys.local, input, op.recipient, op.amount, op.outputs.changeSalt, op.outputs.paySalt,
               op.outputs);
    PaymentConserves(b.notes, b.noteSeq, input, op.recipient, op.amount, op.outputs, PARTIES);
    BookedSums(b, input, op.recipient, op.amount, op.outputs);
  }

  lemma BookedSums(b: Book, i: nat, recipient: nat, amount: int, o: Outputs)
    requires i < |b.notes|
    ensures var b' := BookPayment(b, i, recipient, amount, o);
            b'.seeded == b.seeded && b'.notes == AfterPayment(b.notes, b.noteSeq, i, recipient, amount, o)
  {
  }

  lemma LostInv(s: State, op: Op, e: Event)
    requires Inv(s) && s.ops == [op] && op.Tagging? && !e.Succeeds?
    ensures Inv(After(PaymentStep(s, op, e)))
  {
    hide Holdings, KeysOk, Accounted, AllOpen, OpensUnder;
    LostAccounts(s.book, s.book.notes[op.input].id);
    assert InFlight(s.book, s.ops) == {s.book.notes[op.input].id};
  }

  lemma MinedInv(s: State, op: Op, e: Event)
    requires Inv(s) && s.ops == [op] && op.Proving?
    ensures Inv(After(PaymentStep(s, op, e)))
  {
    hide Holdings, KeysOk, Accounted, AllOpen, Numbered;
    var b := s.book;
    var seg := PaymentStep(s, op, e);
    if (e.Mined? || e.MinedUnread?) && b.notes[op.input].id !in b.nullified {
      assert b.notes[op.input].id !in b.lost by { LostAreNullified(b, op.input); }
      MinedAccounts(b, op.input);
    } else {
    }
  }

  lemma LostAreNullified(b: Book, i: nat)
    requires Accounted(b, {}) && i < |b.notes|
    ensures b.notes[i].id in b.lost ==> b.notes[i].id in b.nullified
  {
  }

  lemma PaymentInv(s: State, op: Op, e: Event)
    requires Inv(s) && s.ops == [op]
    requires op.ReadingSender? || op.CheckingPayment? || op.ReadingChannel? || op.Selecting? || op.Proving?
             || op.Tagging?
    ensures Inv(After(PaymentStep(s, op, e)))
  {
    hide BookOk, Accounted, KeysOk;
    if op.Tagging? {
      if e.Succeeds? {
        BookedInv(s, op);
      } else {
        LostInv(s, op, e);
      }
    } else if op.Proving? {
      MinedInv(s, op, e);
    } else {
    }
  }

  // ---------- scans ----------

  lemma DiscoveredBook(b: Book, known: seq<Option<nat>>, key: nat, p: Payload)
    requires BookOk(b, known) && Accounted(b, {})
    ensures var b' := b.(notes := Discover(b.notes, key, p));
            BookOk(b', known) && Accounted(b', {})
  {
    hide Holdings, Discover;
    DiscoverExact(b.notes, known, key, p);
    DiscoverConserves(b.notes, known, key, p, PARTIES);
    var b' := b.(notes := Discover(b.notes, key, p));
    assert forall i :: 0 <= i < |b.notes| ==>
             b'.notes[i] == b.notes[i] || b'.notes[i] == b.notes[i].(discovered := true);
    forall x | x in b'.lost ensures exists i :: 0 <= i < |b'.notes| && b'.notes[i].id == x {
      var i :| 0 <= i < |b.notes| && b.notes[i].id == x;
      assert b'.notes[i].id == x;
    }
  }

  lemma ScanInv(s: State, op: Op, e: Event)
    requires Inv(s) && s.ops == [op] && (op.ReadingScanner? || op.CheckingScan? || op.Scanning?)
    ensures Inv(After(ScanStep(s, op, e)))
  {
    hide BookOk, Accounted, KeysOk, Discover;
    if op.Scanning? && e.Decrypted? && e.payload.Some? {
      DiscoveredBook(s.book, s.keys.known, KeyOf(s.keys.known, op.scanner), e.payload.value);
    } else {
    }
  }

  lemma StepInv(s: State, op: Op, e: Event)
    requires Inv(s) && s.ops == [op]
    ensures Inv(After(Step(s, op, e))) && Step(s, op, e).s.ops == s.ops && Step(s, op, e).s.busy == s.busy
  {
    hide Inv, BookPayment, Seed, Discover, GoodPayment, SmallestSufficient, NoneSufficient, MakeOutputs;
    if op.CheckingRegistered? || op.MakingKeys? || op.Submitting? || op.Seeding? {
      RegistrationInv(s, op, e);
    } else if op.ReadingPreview? || op.Publishing? {
      ChannelInv(s, op, e);
    } else if op.ReadingScanner? || op.CheckingScan? || op.Scanning? {
      ScanInv(s, op, e);
    } else {
      PaymentInv(s, op, e);
    }
  }

  lemma AdvanceInv(s: State, i: nat, e: Event)
    requires Inv(s)
    ensures Inv(Next(s, Advance(i, e)))
  {
    hide Step, KeysOk, BookOk, Accounted, OpOk;
    if i < |s.ops| {
      assert s.ops == [s.ops[0]];
      StepInv(s, s.ops[0], e);
      AdvanceIsAfter(s, e);
    }
  }

  /** Actions that do not touch the book, the keys or the registration. */
  lemma OutsideInv(s: State, a: Action)
    requires Inv(s) && !a.Advance?
    ensures Inv(Next(s, a))
  {
    hide KeysOk, BookOk, Accounted, SmallestSufficient;
  }

  lemma NextInv(s: State, a: Action)
    requires Inv(s)
    ensures Inv(Next(s, a))
  {
    hide Inv;
    if a.Advance? {
      AdvanceInv(s, a.index, a.event);
    } else {
      OutsideInv(s, a);
    }
  }

  lemma InitialInv()
    ensures Inv(Initial())
  {
    EmptyHoldings(PARTIES);
  }

  lemma {:induction false} EmptyHoldings(parties: nat)
    ensures Holdings([], parties) == 0
  {
    if parties > 0 {
      EmptyHoldings(parties - 1);
    }
  }

  lemma {:induction false} RunInv(actions: seq<Action>)
    ensures Inv(Run(actions))
    decreases |actions|
  {
    hide Inv, Next;
    if actions == [] {
      InitialInv();
    } else {
      RunInv(actions[..|actions| - 1]);
      NextInv(Run(actions[..|actions| - 1]), actions[|actions| - 1]);
    }
  }

  // ---------- value and openings ----------

  /** In every reached state balance plus pending value of all parties is what was seeded, and every note is positive
      and opens under its owner's registered key. */
  lemma {:induction false} Conservation(actions: seq<Action>)
    ensures var s := Run(actions);
            Holdings(s.book.notes, PARTIES) == s.book.seeded >= 0 && AllOpen(s.book.notes, s.keys.known)
  {
    RunInv(actions);
  }

  // ---------- the gate ----------

  /** At most one action runs, exactly while `busy` says so. Until it ends no other action starts, the actor cannot
      be switched, and only a channel preview that was already being computed can still arrive. */
  lemma {:induction false} GateExcludes(actions: seq<Action>, a: Action)
    ensures var s := Run(actions);
            var s' := Next(s, a);
            && |s.ops| <= 1 && (s.busy <==> |s.ops| == 1)
            && (s.busy && !a.Advance? ==>
                  s' == s.(preview := s'.preview, previewSeq := s'.previewSeq, previews := s'.previews))
            && (s.busy && !a.Advance? && !a.FinishPreview? ==> s' == s)
  {
    hide KeysOk, BookOk, Accounted, OpOk;
    RunInv(actions);
  }

  /** From selection to booking, whatever the chain does in between, the selected note stays a smallest sufficient
      spendable note of the sender, and the channel stays open. */
  lemma {:induction false} SelectionStands(actions: seq<Action>)
    ensures var s := Run(actions);
            |s.ops| == 1 && (s.ops[0].Proving? || s.ops[0].Tagging?) ==>
              var op := s.ops[0];
              && SmallestSufficient(s.book.notes, op.sender, op.amount, op.input)
              && op.sender != op.recipient && op.amount > 0 && (op.sender as int, op.recipient) in s.channels
  {
    hide KeysOk, BookOk, Accounted;
    RunInv(actions);
  }

  /** A section of a payment changes the notes exactly when it is the booking section and everything before it
      succeeded; then it spends the selected note, moves the amount from the sender's balance to the recipient's
      pending value, and leaves every other party's holdings alone. */
  lemma {:induction false} PaymentAllOrNothing(actions: seq<Action>, e: Event, party: nat)
    requires var s := Run(actions); |s.ops| == 1 && !s.ops[0].Scanning? && !s.ops[0].Seeding?
    ensures var s := Run(actions);
            var before, after := s.book.notes, Next(s, Advance(0, e)).book.notes;
            var op := s.ops[0];
            && (after != before <==> op.Tagging? && e.Succeeds?)
            && (after != before ==>
                  && op.input < |before| && after == AfterPayment(before, s.book.noteSeq, op.input, op.recipient,
                                                                  op.amount, op.outputs)
                  && BalanceOf(after, party) == BalanceOf(before, party) - (if party == op.sender then op.amount else 0)
                  && PendingOf(after, party) == PendingOf(before, party)
                     + (if party == op.recipient then op.amount else 0))
  {
    hide KeysOk, BookOk, Accounted, AfterPayment;
    RunInv(actions);
    var s := Run(actions);
    var op := s.ops[0];
    assert s.ops == [op];
    StepInv(s, op, e);
    AdvanceIsAfter(s, e);
    if op.Tagging? && e.Succeeds? {
      PaymentMoves(s.book.notes, s.book.noteSeq, op.input, op.recipient, op.amount, op.outputs, party);
      PaymentGrows(s.book.notes, s.book.noteSeq, op.input, op.recipient, op.amount, op.outputs);
    } else {
    }
  }

  lemma PaymentGrows(notes: seq<Note>, seqNo: nat, n: nat, recipient: nat, amount: int, o: Outputs)
    requires n < |notes|
    ensures |AfterPayment(notes, seqNo, n, recipient, amount, o)| > |notes|
  {
  }

  // ---------- the chain ----------

  /** Before a payment is relayed: it will be booked, if every later step succeeds, exactly when the selected note was
      not lost by an earlier payment. Otherwise it ends with every note as it was, and since the selection does not
      look at the chain the same note can be selected again. */
  lemma {:induction false} BookedIff(actions: seq<Action>, changeSalt: int, paySalt: int)
    requires var s := Run(actions); |s.ops| == 1 && s.ops[0].Proving?
    ensures var s := Run(actions);
            var op := s.ops[0];
            var s' := Next(Next(s, Advance(0, Mined(changeSalt, paySalt))), Advance(0, Succeeds));
            && op.input < |s.book.notes| && s'.ops == []
            && (s.book.notes[op.input].id !in s.book.lost <==> |s'.book.notes| > |s.book.notes|)
            && (s.book.notes[op.input].id in s.book.lost ==> s'.book == s.book)
  {
    hide KeysOk, BookOk, AfterPayment, MakeOutputs;
    RunInv(actions);
    var s := Run(actions);
    var op := s.ops[0];
    assert s.ops == [op];
    assert s.book.notes[op.input].id in s.book.nullified <==> s.book.notes[op.input].id in s.book.lost;
    var s1 := Next(s, Advance(0, Mined(changeSalt, paySalt)));
    if s.book.notes[op.input].id !in s.book.lost {
      var o := MakeOutputs(s, op.sender, op.recipient, op.amount, s.book.notes[op.input], changeSalt, paySalt);
      assert s1.ops == [Tagging(op.sender, op.recipient, op.amount, op.input, o)];
      PaymentGrows(s1.book.notes, s1.book.noteSeq, op.input, op.recipient, op.amount, o);
    } else {
      assert s1.ops == [];
    }
  }

  /** Notes, discoveries and losses are kept, and new notes get new ids. */
  ghost predicate Grows(before: Book, after: Book) {
    && |after.notes| >= |before.notes| && before.lost <= after.lost
    && (forall i :: 0 <= i < |before.notes| ==>
          after.notes[i].id == before.notes[i].id && after.notes[i].owner == before.notes[i].owner
          && after.notes[i].amount == before.notes[i].amount
          && (before.notes[i].discovered ==> after.notes[i].discovered))
    && forall i :: |before.notes| <= i < |after.notes| ==> after.notes[i].id > before.noteSeq
  }

  lemma SectionGrows(s: State, op: Op, e: Event)
    ensures Grows(s.book, Step(s, op, e).s.book)
  {
    hide GoodPayment, SmallestSufficient, NoneSufficient, MakeOutputs;
    if op.Tagging? || op.Scanning? || op.Seeding? {
    } else {
      assert Step(s, op, e).s.book.notes == s.book.notes;
    }
  }

  lemma NotesGrow(s: State, a: Action)
    ensures Grows(s.book, Next(s, a).book)
  {
    hide Step, GoodPreview;
    if a.Advance? && a.index < |s.ops| {
      SectionGrows(s, s.ops[a.index], a.event);
    }
  }

  lemma RunExtend(actions: seq<Action>, a: Action)
    ensures Run(actions + [a]) == Next(Run(actions), a)
  {
    assert (actions + [a])[..|actions|] == actions;
  }

  // ---------- scans ----------

  /** A decrypted payload makes its first note discovered, and touches nothing else. Only without such a note does the
      list stay as it was. */
  lemma DiscoverFinds(notes: seq<Note>, known: seq<Option<nat>>, key: nat, p: Payload)
    requires AllOpen(notes, known)
    ensures forall i: nat :: Matches(notes, key, p, i) ==>
              Discover(notes, key, p) == notes[i := notes[i].(discovered := true)]
    ensures (forall i: nat :: !Matches(notes, key, p, i)) ==> Discover(notes, key, p) == notes
  {
    var i := FirstMatch(notes, Commit(key, p));
    if i < |notes| {
      assert OpensUnder(notes[i], known[notes[i].owner].value);
      assert Matches(notes, key, p, i);
      forall k: nat | Matches(notes, key, p, k) ensures k == i {
      }
      assert notes[i].discovered ==> notes == notes[i := notes[i].(discovered := true)];
    }
  }

  /** A tag that a running scan decrypts makes the first note that opens under the scanner's key with its payload
      discovered: if it was not spent and not discovered yet, its amount moves from the scanner's pending value to its
      balance. Everything else stays, and a tag without such a note changes nothing. */
  lemma {:induction false} ScanExact(actions: seq<Action>, p: Payload, party: nat)
    requires var s := Run(actions); |s.ops| == 1 && s.ops[0].Scanning?
    ensures var s := Run(actions);
            var scanner, key := s.ops[0].scanner, KeyOf(s.keys.known, s.ops[0].scanner);
            var before, after := s.book.notes, Next(s, Advance(0, Decrypted(Some(p)))).book.notes;
            && scanner < |s.keys.known| && s.keys.known[scanner] == Some(key)
            && (forall i: nat :: Matches(before, key, p, i) ==>
                  && before[i].owner == scanner && after == before[i := before[i].(discovered := true)]
                  && var found := if party == scanner && !before[i].spent && !before[i].discovered
                                  then before[i].amount else 0;
                     && BalanceOf(after, party) == BalanceOf(before, party) + found
                     && PendingOf(after, party) == PendingOf(before, party) - found)
            && ((forall i: nat :: !Matches(before, key, p, i)) ==> after == before)
  {
    hide Discover, Holdings, Accounted, Numbered, KeysOk, OpensUnder, BalanceOf, PendingOf, Run, Matches;
    RunInv(actions);
    var s := Run(actions);
    var op := s.ops[0];
    assert s.ops == [op];
    SettledParty(s.keys, op.scanner);
    var key := KeyOf(s.keys.known, op.scanner);
    var before := s.book.notes;
    assert Next(s, Advance(0, Decrypted(Some(p)))).book.notes == Discover(before, key, p) by {
      hide OpOk, BookOk;
    }
    DiscoverFinds(before, s.keys.known, key, p);
    forall i: nat | Matches(before, key, p, i)
      ensures i < |before| && before[i].owner == op.scanner && before[i].amount > 0
    {
      MatchIsOwned(s.keys, before, op.scanner, p, i);
    }
    forall i: nat | Matches(before, key, p, i) ensures
      var found := if party == op.scanner && !before[i].spent && !before[i].discovered then before[i].amount else 0;
      && BalanceOf(before[i := before[i].(discovered := true)], party) == BalanceOf(before, party) + found
      && PendingOf(before[i := before[i].(discovered := true)], party) == PendingOf(before, party) - found
    {
      SumsUpdate(before, i, before[i].(discovered := true), party);
    }
  }

  lemma MatchIsOwned(k: Keys, notes: seq<Note>, scanner: nat, p: Payload, i: nat)
    requires KeysOk(k) && Settled(k, PARTIES) && scanner < PARTIES && AllOpen(notes, k.known)
    requires Matches(notes, KeyOf(k.known, scanner), p, i)
    ensures i < |notes| && notes[i].owner == scanner && notes[i].amount > 0
  {
    hide KeysOk, Settled;
    SettledParty(k, 0);
    SettledParty(k, notes[i].owner);
    OwnersKey(k, notes[i], scanner);
  }

  /** Registered keys differ, so a note opens under its owner's key only. */
  lemma OwnersKey(k: Keys, n: Note, party: nat)
    requires KeysOk(k) && Settled(k, PARTIES) && party < PARTIES && n.owner < PARTIES
    requires OpensUnder(n, KeyOf(k.known, party)) && OpensUnder(n, KeyOf(k.known, n.owner))
    ensures n.owner == party
  {
    SettledParty(k, party);
    SettledParty(k, n.owner);
  }

  // ---------- registration ----------

  /** The first party is on the chain already, and no registration is past it. */
  ghost predicate Dead(s: State) {
    && Inv(s) && !s.registered && s.keys.chain[0].Some?
    && (|s.ops| == 1 ==> !s.ops[0].Seeding? && (s.ops[0].Submitting? ==> s.ops[0].party == 0))
  }

  lemma DeadNext(s: State, a: Action)
    requires Dead(s)
    ensures Dead(Next(s, a))
  {
    hide BookOk, Accounted, GoodPayment, SmallestSufficient, NoneSufficient, MakeOutputs, BookPayment, Seed, Discover;
    NextInv(s, a);
    if a.Advance? && a.index < |s.ops| {
      assert s.ops == [s.ops[0]];
    }
  }

  lemma {:induction false} DeadForever(actions: seq<Action>, more: seq<Action>)
    requires Dead(Run(actions))
    ensures Dead(Run(actions + more))
    decreases |more|
  {
    hide Next, Dead, Run;
    if more == [] {
      assert actions + more == actions;
    } else {
      var m := |more| - 1;
      DeadForever(actions, more[..m]);
      DeadNext(Run(actions + more[..m]), more[m]);
      RunExtend(actions + more[..m], more[m]);
      assert actions + more == actions + more[..m] + [more[m]];
    }
  }

  ghost predicate Ready(s: State) {
    s.registered && !s.busy
  }

  /** Party 0 has a note of the seeded amount. */
  ghost predicate Funded(b: Book) {
    exists i :: 0 <= i < |b.notes| && Spendable(b.notes[i], 0) && b.notes[i].amount >= SEED
  }

  /** The controllable parties from `first` on have got their seeds. */
  ghost predicate SeededFrom(before: seq<Note>, after: seq<Note>, first: nat) {
    forall p: nat ::
      && BalanceOf(after, p) == BalanceOf(before, p) + (if first <= p < 3 then 100 else 0)
      && PendingOf(after, p) == PendingOf(before, p)
  }

  lemma SeedsOne(b: Book, party: nat, key: nat, salt: int, after: seq<Note>)
    requires party < 3 && SeededFrom(Seed(b, party, key, salt).notes, after, party + 1)
    ensures SeededFrom(b.notes, after, party)
  {
    hide BalanceOf, PendingOf;
    var n := Note(b.noteSeq + 1, party, SEED, SEED_TOKEN, salt, Commit(key, Payload(salt, SEED, SEED_TOKEN)), false,
                  true);
    forall p: nat
      ensures BalanceOf(after, p) == BalanceOf(b.notes, p) + (if party <= p < 3 then 100 else 0)
      ensures PendingOf(after, p) == PendingOf(b.notes, p)
    {
      SumsAppend(b.notes, n, p);
    }
  }

  lemma SeedFunds(b: Book, party: nat, key: nat, salt: int)
    ensures Funded(b) || party == 0 ==> Funded(Seed(b, party, key, salt))
    ensures Seed(b, party, key, salt).lost == b.lost
  {
    var b' := Seed(b, party, key, salt);
    assert Spendable(b'.notes[|b.notes|], party);
    if Funded(b) {
      var i :| 0 <= i < |b.notes| && Spendable(b.notes[i], 0) && b.notes[i].amount >= SEED;
      assert b'.notes[i] == b.notes[i];
    }
  }

  lemma {:induction false} FinishSeeding(actions: seq<Action>, j: nat) returns (more: seq<Action>)
    requires var s := Run(actions); Inv(s) && s.ops == [Seeding(j)] && j <= PARTIES
    ensures Ready(Run(actions + more)) && Run(actions + more).book.lost == Run(actions).book.lost
    ensures SeededFrom(Run(actions).book.notes, Run(actions + more).book.notes, j)
    ensures j == 0 || Funded(Run(actions).book) ==> Funded(Run(actions + more).book)
    decreases PARTIES - j
  {
    hide Run, BookOk, Accounted, Seed, Funded, BalanceOf, PendingOf;
    var s := Run(actions);
    var a := Advance(0, if j < PARTIES && Controllable(j) then Deposited(0) else Succeeds);
    RunExtend(actions, a);
    NextInv(s, a);
    SeedFunds(s.book, j, KeyOf(s.keys.local, j), 0);
    if j == PARTIES {
      more := [a];
    } else {
      var rest := FinishSeeding(actions + [a], j + 1);
      more := [a] + rest;
      assert actions + more == actions + [a] + rest;
      if Controllable(j) {
        SeedsOne(s.book, j, KeyOf(s.keys.local, j), 0, Run(actions + more).book.notes);
      }
    }
  }

  lemma {:induction false} FinishSubmitting(actions: seq<Action>, j: nat) returns (more: seq<Action>)
    requires var s := Run(actions);
             Inv(s) && s.ops == [Submitting(j)] && forall i :: j <= i < PARTIES ==> s.keys.chain[i].None?
    ensures Ready(Run(actions + more)) && Run(actions + more).book.lost == Run(actions).book.lost
    ensures Funded(Run(actions + more).book)
    ensures SeededFrom(Run(actions).book.notes, Run(actions + more).book.notes, 0)
    decreases PARTIES - j
  {
    hide Run, BookOk, Accounted, SeededFrom;
    var s := Run(actions);
    var a := Advance(0, Succeeds);
    RunExtend(actions, a);
    NextInv(s, a);
    if j + 1 < PARTIES {
      var rest := FinishSubmitting(actions + [a], j + 1);
      more := [a] + rest;
      assert actions + more == actions + [a] + rest;
    } else {
      var rest := FinishSeeding(actions + [a], 0);
      more := [a] + rest;
      assert actions + more == actions + [a] + rest;
    }
  }

  lemma {:induction false} MakesKeys(actions: seq<Action>, j: nat) returns (more: seq<Action>)
    requires var s := Run(actions); Inv(s) && s.ops == [MakingKeys(j)]
    ensures var s, s' := Run(actions), Run(actions + more);
            && Inv(s') && s'.ops == [Submitting(0)] && s'.keys.chain == s.keys.chain && !s'.registered
            && s'.book == s.book
    decreases PARTIES - j
  {
    hide Run, BookOk, Accounted;
    var s := Run(actions);
    var a := Advance(0, Succeeds);
    RunExtend(actions, a);
    NextInv(s, a);
    if j + 1 < PARTIES {
      var rest := MakesKeys(actions + [a], j + 1);
      more := [a] + rest;
      assert actions + more == actions + [a] + rest;
    } else {
      more := [a];
    }
  }

  /** An idle session that is not registered can get as far as submitting its first key. */
  lemma {:induction false} ReachesSubmitting(actions: seq<Action>) returns (more: seq<Action>)
    requires var s := Run(actions); Inv(s) && !s.busy && !s.registered
    ensures var s, s' := Run(actions), Run(actions + more);
            && Inv(s') && s'.ops == [Submitting(0)] && s'.keys.chain == s.keys.chain && !s'.registered
            && s'.book == s.book
  {
    hide Run, BookOk, Accounted;
    var s := Run(actions);
    assert s.ops == [];
    var start := Start(CheckingRegistered);
    RunExtend(actions, start);
    NextInv(s, start);
    var begun := actions + [start];
    RunExtend(begun, Advance(0, Succeeds));
    NextInv(Run(begun), Advance(0, Succeeds));
    var rest := MakesKeys(begun + [Advance(0, Succeeds)], 0);
    more := [start, Advance(0, Succeeds)] + rest;
    assert actions + more == begun + [Advance(0, Succeeds)] + rest;
  }

  lemma {:induction false} RegistersFromIdle(actions: seq<Action>) returns (more: seq<Action>)
    requires var s := Run(actions); Inv(s) && !s.busy && !s.registered && s.keys.chain[0].None?
    ensures Ready(Run(actions + more)) && Run(actions + more).book.lost == Run(actions).book.lost
    ensures Funded(Run(actions + more).book)
    ensures SeededFrom(Run(actions).book.notes, Run(actions + more).book.notes, 0)
  {
    hide Run, BookOk, Accounted, SeededFrom;
    var first := ReachesSubmitting(actions);
    var rest := FinishSubmitting(actions + first, 0);
    more := first + rest;
    assert actions + more == actions + first + rest;
  }

  predicate Unregistered(k: Keys) {
    forall i :: 0 <= i < |k.chain| ==> k.chain[i].None?
  }

  /** An idle session that is not registered can still be registered exactly when no registration transaction was ever
      mined: after a failure past the first one, every retry is refused by the registry contract. */
  lemma {:induction false} RegistrationRecoversIff(actions: seq<Action>)
    requires !Run(actions).busy && !Run(actions).registered
    ensures (exists more :: Run(actions + more).registered) <==> Unregistered(Run(actions).keys)
  {
    hide Run, BookOk, Accounted;
    RunInv(actions);
    if Unregistered(Run(actions).keys) {
      var more := RegistersFromIdle(actions);
    } else {
      forall more ensures !Run(actions + more).registered {
        DeadForever(actions, more);
      }
    }
  }

  /** A fresh session can be registered, and then each of the three controllable parties holds 100 and nobody else
      anything. */
  lemma {:induction false} FreshRegistration() returns (actions: seq<Action>)
    ensures var s := Run(actions);
            && s.registered && !s.busy
            && forall p: nat ::
                 && BalanceOf(s.book.notes, p) == (if p < 3 then 100 else 0) && PendingOf(s.book.notes, p) == 0
  {
    hide Run, BookOk, Accounted;
    RunInv([]);
    assert Run([]) == Initial() by { EmptyRun(); }
    actions := RegistersFromIdle([]);
    assert [] + actions == actions;
  }

  /** A fresh session gets there: when its first registration transaction is mined but cannot be read back, the session
      is idle again, not registered, and no continuation registers it. */
  lemma {:induction false} RegistrationFails() returns (actions: seq<Action>)
    ensures var s := Run(actions); !s.busy && !s.registered && !Unregistered(s.keys)
    ensures forall more :: !Run(actions + more).registered
  {
    hide Run, BookOk, Accounted;
    RunInv([]);
    assert Run([]) == Initial() by { EmptyRun(); }
    var first := ReachesSubmitting([]);
    assert [] + first == first;
    RunExtend(first, Advance(0, MinedUnread));
    actions := first + [Advance(0, MinedUnread)];
    assert Run(actions).keys.chain[0].Some?;
    RegistrationRecoversIff(actions);
  }

  // ---------- permitted payments go through ----------

  function PaymentSteps(recipient: nat, amount: int, n: nat, changeSalt: int, paySalt: int): seq<Action> {
    [Start(ReadingSender(recipient, amount)), Advance(0, Succeeds), Advance(0, Succeeds), Advance(0, Succeeds),
     Advance(0, Selected(n)), Advance(0, Mined(changeSalt, paySalt)), Advance(0, Succeeds)]
  }

  lemma {:induction false} RunSeven(actions: seq<Action>, steps: seq<Action>)
    requires |steps| == 7
    ensures Run(actions + steps)
         == Next(Next(Next(Next(Next(Next(Next(Run(actions), steps[0]), steps[1]), steps[2]), steps[3]), steps[4]),
                      steps[5]), steps[6])
  {
    hide Next, Run;
    var a1 := actions + [steps[0]];
    var a2 := a1 + [steps[1]];
    var a3 := a2 + [steps[2]];
    var a4 := a3 + [steps[3]];
    var a5 := a4 + [steps[4]];
    var a6 := a5 + [steps[5]];
    RunExtend(actions, steps[0]);
    RunExtend(a1, steps[1]);
    RunExtend(a2, steps[2]);
    RunExtend(a3, steps[3]);
    RunExtend(a4, steps[4]);
    RunExtend(a5, steps[5]);
    RunExtend(a6, steps[6]);
    assert actions + steps == a6 + [steps[6]];
  }

  /** From every reached idle state, a payment that passes the session's checks over an open channel is booked when
      every external step succeeds, unless its note was lost by an earlier payment. */
  lemma {:induction false} PaymentGoesThrough(actions: seq<Action>, recipient: nat, amount: int, n: nat,
                                              changeSalt: int, paySalt: int)
    requires var s := Run(actions);
             && !s.busy && GoodPayment(s, s.actor, recipient, amount) && (s.actor, recipient) in s.channels
             && SmallestSufficient(s.book.notes, s.actor, amount, n) && s.book.notes[n].id !in s.book.lost
    ensures var s, s' := Run(actions), Run(actions + PaymentSteps(recipient, amount, n, changeSalt, paySalt));
            && !s'.busy
            && s'.book.notes == AfterPayment(s.book.notes, s.book.noteSeq, n, recipient, amount,
                                             MakeOutputs(s, s.actor, recipient, amount, s.book.notes[n], changeSalt,
                                                         paySalt))
  {
    hide Run, AfterPayment, MakeOutputs, KeysOk, BookOk;
    var s := Run(actions);
    RunInv(actions);
    RunSeven(actions, PaymentSteps(recipient, amount, n, changeSalt, paySalt));
    assert s.ops == [];
    assert s.book.notes[n].id !in s.book.nullified;
    PaymentPath(s, recipient, amount, n, changeSalt, paySalt);
  }

  lemma PaymentPath(s: State, recipient: nat, amount: int, n: nat, changeSalt: int, paySalt: int)
    requires s.ops == [] && !s.busy && GoodPayment(s, s.actor, recipient, amount) && (s.actor, recipient) in s.channels
    requires SmallestSufficient(s.book.notes, s.actor, amount, n) && s.book.notes[n].id !in s.book.nullified
    ensures var t := PaymentSteps(recipient, amount, n, changeSalt, paySalt);
            var s4 := Next(Next(Next(Next(s, t[0]), t[1]), t[2]), t[3]);
            var s' := Next(Next(Next(s4, t[4]), t[5]), t[6]);
            && !s'.busy
            && s'.book.notes == AfterPayment(s.book.notes, s.book.noteSeq, n, recipient, amount,
                                             MakeOutputs(s, s.actor, recipient, amount, s.book.notes[n], changeSalt,
                                                         paySalt))
  {
    hide AfterPayment, MakeOutputs, GoodPayment, SmallestSufficient;
    assert 0 <= s.actor by { GoodSender(s, recipient, amount); }
    assert !NoneSufficient(s.book.notes, s.actor, amount) && n < |s.book.notes| by { SufficientExists(s, amount, n); }
    PathToSelection(s, recipient, amount, n, changeSalt, paySalt);
    PathFromSelection(s, recipient, amount, n, changeSalt, paySalt);
  }

  lemma PathToSelection(s: State, recipient: nat, amount: int, n: nat, changeSalt: int, paySalt: int)
    requires s.ops == [] && !s.busy && GoodPayment(s, s.actor, recipient, amount) && (s.actor, recipient) in s.channels
    requires 0 <= s.actor
    ensures var t := PaymentSteps(recipient, amount, n, changeSalt, paySalt);
            Next(Next(Next(Next(s, t[0]), t[1]), t[2]), t[3])
                == s.(busy := true, ops := [Selecting(s.actor, recipient, amount)])
  {
    hide Next, GoodPayment;
    var sender: nat := s.actor;
    assert GoodPayment(s, sender, recipient, amount);
    var t := PaymentSteps(recipient, amount, n, changeSalt, paySalt);
    var s1 := s.(busy := true, ops := [ReadingSender(recipient, amount)]);
    StartsPayment(s, recipient, amount);
    PaymentGoesOn(s1, ReadingSender(recipient, amount), t[1].event, CheckingPayment(s.actor, recipient, amount));
    var s2 := s1.(ops := [CheckingPayment(s.actor, recipient, amount)]);
    assert GoodPayment(s2, sender, recipient, amount) by { SameGoodPayment(s, s2, sender, recipient, amount); }
    PaymentGoesOn(s2, CheckingPayment(s.actor, recipient, amount), t[2].event,
                  ReadingChannel(sender, recipient, amount));
    var s3 := s1.(ops := [ReadingChannel(sender, recipient, amount)]);
    PaymentGoesOn(s3, ReadingChannel(sender, recipient, amount), t[3].event, Selecting(sender, recipient, amount));
  }

  lemma StartsPayment(s: State, recipient: nat, amount: int)
    requires s.ops == [] && !s.busy
    ensures Next(s, Start(ReadingSender(recipient, amount)))
            == s.(busy := true, ops := [ReadingSender(recipient, amount)])
  {
  }

  lemma PaymentGoesOn(s: State, op: Op, e: Event, op': Op)
    requires s.ops == [op] && (op.ReadingSender? || op.CheckingPayment? || op.ReadingChannel?)
    requires PaymentStep(s, op, e) == Segment(s, Some(op'))
    ensures Next(s, Advance(0, e)) == s.(ops := [op'])
  {
    hide PaymentStep;
  }

  lemma SameGoodPayment(s: State, s': State, sender: int, recipient: nat, amount: int)
    requires GoodPayment(s, sender, recipient, amount) && s'.registered == s.registered
    ensures GoodPayment(s', sender, recipient, amount)
  {
  }

  lemma PathFromSelection(s: State, recipient: nat, amount: int, n: nat, changeSalt: int, paySalt: int)
    requires 0 <= s.actor && s.ops == []
    requires SmallestSufficient(s.book.notes, s.actor, amount, n) && s.book.notes[n].id !in s.book.nullified
    requires !NoneSufficient(s.book.notes, s.actor, amount) && n < |s.book.notes|
    ensures var t := PaymentSteps(recipient, amount, n, changeSalt, paySalt);
            var s4 := s.(busy := true, ops := [Selecting(s.actor, recipient, amount)]);
            var s' := Next(Next(Next(s4, t[4]), t[5]), t[6]);
            && !s'.busy
            && s'.book.notes == AfterPayment(s.book.notes, s.book.noteSeq, n, recipient, amount,
                                             MakeOutputs(s, s.actor, recipient, amount, s.book.notes[n], changeSalt,
                                                         paySalt))
  {
    hide AfterPayment, MakeOutputs, SmallestSufficient, NoneSufficient, RegistrationStep, ChannelStep, ScanStep;
    var sender: nat := s.actor;
    var t := PaymentSteps(recipient, amount, n, changeSalt, paySalt);
    var s4 := s.(busy := true, ops := [Selecting(sender, recipient, amount)]);
    var s5 := Next(s4, t[4]);
    assert s5 == s4.(ops := [Proving(sender, recipient, amount, n)]);
    var o := MakeOutputs(s, sender, recipient, amount, s.book.notes[n], changeSalt, paySalt);
    SameOutputs(s, s5, sender, recipient, amount, s.book.notes[n], changeSalt, paySalt);
    var s6 := Next(s5, t[5]);
    assert s6.ops == [Tagging(sender, recipient, amount, n, o)];
  }

  lemma GoodSender(s: State, recipient: nat, amount: int)
    requires GoodPayment(s, s.actor, recipient, amount)
    ensures 0 <= s.actor < PARTIES
  {
  }

  lemma SufficientExists(s: State, amount: int, n: nat)
    requires 0 <= s.actor && SmallestSufficient(s.book.notes, s.actor, amount, n)
    ensures n < |s.book.notes| && !NoneSufficient(s.book.notes, s.actor, amount)
  {
  }

  lemma SameOutputs(s: State, s': State, sender: nat, recipient: nat, amount: int, input: Note, changeSalt: int,
                    paySalt: int)
    requires s'.keys == s.keys
    ensures MakeOutputs(s', sender, recipient, amount, input, changeSalt, paySalt)
         == MakeOutputs(s, sender, recipient, amount, input, changeSalt, paySalt)
  {
  }

  /** Preview, then publish. */
  function ChannelSteps(s: State, recipient: nat): seq<Action> {
    [StartPreview(recipient), FinishPreview(|s.previews|, true), Start(ReadingPreview(None)), Advance(0, Succeeds),
     Advance(0, Succeeds)]
  }

  /** From every reached idle state the actor can open a channel to any other party. */
  lemma {:induction false} ChannelOpens(actions: seq<Action>, recipient: nat)
    requires var s := Run(actions);
             !s.busy && s.registered && 0 <= s.actor < PARTIES && recipient < PARTIES && recipient != s.actor
    ensures var s, s' := Run(actions), Run(actions + ChannelSteps(Run(actions), recipient));
            && !s'.busy && s'.channels == s.channels + {(s.actor, recipient)} && s'.book == s.book
               && s'.actor == s.actor
            && s'.registered
  {
    hide Run, BookOk, Accounted;
    RunInv(actions);
    var s := Run(actions);
    var t := ChannelSteps(s, recipient);
    RunExtend(actions, t[0]);
    RunExtend(actions + [t[0]], t[1]);
    RunExtend(actions + [t[0]] + [t[1]], t[2]);
    RunExtend(actions + [t[0]] + [t[1]] + [t[2]], t[3]);
    RunExtend(actions + [t[0]] + [t[1]] + [t[2]] + [t[3]], t[4]);
    assert actions + t == actions + [t[0]] + [t[1]] + [t[2]] + [t[3]] + [t[4]];
    SettledParty(s.keys, recipient);
  }

  lemma {:induction false} SmallestExists(notes: seq<Note>, owner: nat, amount: int, i: nat) returns (n: nat)
    requires i < |notes| && Spendable(notes[i], owner) && notes[i].amount >= amount
    ensures SmallestSufficient(notes, owner, amount, n)
    decreases notes[i].amount - amount
  {
    if !SmallestSufficient(notes, owner, amount, i) {
      var j :| 0 <= j < |notes| && Spendable(notes[j], owner) && amount <= notes[j].amount < notes[i].amount;
      n := SmallestExists(notes, owner, amount, j);
    } else {
      n := i;
    }
  }

  /** A fresh session can be registered, act as party 0 and open a channel to party 1, with a note that covers 30. */
  lemma {:induction false} ReadyToPay() returns (actions: seq<Action>, n: nat)
    ensures var s := Run(actions);
            && !s.busy && GoodPayment(s, 0, 1, 30) && s.actor == 0 && (0, 1) in s.channels && s.book.lost == {}
            && n < |s.book.notes| && SmallestSufficient(s.book.notes, 0, 30, n)
  {
    hide Run, BookOk, Accounted, SmallestSufficient;
    RunInv([]);
    assert Run([]) == Initial() by { EmptyRun(); }
    var more := RegistersFromIdle([]);
    assert [] + more == more;
    RunInv(more);
    var s1 := Run(more);
    SettledParty(s1.keys, 0);
    RunExtend(more, SetActor(0));
    var acting := more + [SetActor(0)];
    ChannelOpens(acting, 1);
    actions := acting + ChannelSteps(Run(acting), 1);
    var s := Run(actions);
    var i :| 0 <= i < |s.book.notes| && Spendable(s.book.notes[i], 0) && s.book.notes[i].amount >= SEED;
    n := SmallestExists(s.book.notes, 0, 30, i);
    assert n < |s.book.notes| by { SufficientExists(s, 30, n); }
  }

  /** The actor is switched exactly while the gate is open, to a controllable party whose key was read back. */
  lemma {:induction false} ActorSwitches(actions: seq<Action>, party: nat)
    ensures var s, s' := Run(actions), Next(Run(actions), SetActor(party));
            if !s.busy && party < 3 && party < |s.keys.known| && s.keys.known[party].Some? then s' == s.(actor := party)
            else s' == s
  {
  }

  /** The checks of payments, channel openings and scans in every reached state: the action goes on exactly under these
      conditions, to the next step with the same parties, and ends otherwise; either way nothing else changes. */
  lemma {:induction false} ChecksExact(actions: seq<Action>, e: Event)
    requires var s := Run(actions);
             |s.ops| == 1 && (s.ops[0].CheckingPayment? || s.ops[0].ReadingChannel? || s.ops[0].ReadingPreview?
                              || s.ops[0].ReadingSender? || s.ops[0].ReadingScanner? || s.ops[0].CheckingScan?)
    ensures var s, s' := Run(actions), Next(Run(actions), Advance(0, e));
            match s.ops[0]
            case ReadingSender(recipient, amount) => s' == Goes(s, true, CheckingPayment(s.actor, recipient, amount))
            case CheckingPayment(sender, recipient, amount) =>
              var good := s.registered && 0 <= sender < 8 && recipient < 3 && sender != recipient && amount > 0;
              s' == Goes(s, good, ReadingChannel(if good then sender else 0, recipient, amount))
            case ReadingChannel(sender, recipient, amount) =>
              s' == Goes(s, (sender as int, recipient) in s.channels, Selecting(sender, recipient, amount))
            case ReadingPreview(requested) =>
              var good := s.preview.Some? && !e.Fails? && (requested.Some? ==> requested.value == s.preview.value.id);
              s' == Goes(s, good, if good then Publishing(s.preview.value) else s.ops[0])
            case ReadingScanner => s' == Goes(s, true, CheckingScan(s.actor))
            case CheckingScan(scanner) =>
              var good := s.registered && 0 <= scanner < 8 && !e.Fails?;
              s' == Goes(s, good, Scanning(if good then scanner else 0))
            case _ => true
  {
    hide Run, KeysOk, BookOk, Accounted, OpOk;
    RunInv(actions);
    var s := Run(actions);
    assert s.ops == [s.ops[0]];
    assert s.ops[..0] + s.ops[1..] == [];
  }

  /** The running action goes on, or ends. */
  function Goes(s: State, on: bool, next: Op): State {
    if on then s.(ops := [next]) else s.(ops := [], busy := false)
  }

  /** A computed preview is kept exactly if it succeeded between two different parties, the recipient's key being known;
      it gets the next number. */
  lemma {:induction false} PreviewExact(actions: seq<Action>, j: nat, ok: bool)
    requires j < |Run(actions).previews|
    ensures var s, s' := Run(actions), Next(Run(actions), FinishPreview(j, ok));
            var p := s.previews[j];
            && s'.previews == s.previews[..j] + s.previews[j + 1..]
            && s' == s.(previews := s'.previews, preview := s'.preview, previewSeq := s'.previewSeq)
            && if ok && s.registered && 0 <= p.sender < 8 && p.recipient < 8 && p.sender != p.recipient
                  && p.recipient < |s.keys.known| && s.keys.known[p.recipient].Some?
               then s'.previewSeq == s.previewSeq + 1
                    && s'.preview == Some(Preview(s.previewSeq + 1, p.sender, p.recipient))
               else s'.previewSeq == s.previewSeq && s'.preview == s.preview
  {
    hide Run;
  }

  /** The published channel is the one that was previewed, whoever acts by then, and its preview is used up. */
  lemma {:induction false} PublishesPreview(actions: seq<Action>, e: Event)
    requires var s := Run(actions); |s.ops| == 1 && s.ops[0].Publishing?
    ensures var s, s' := Run(actions), Next(Run(actions), Advance(0, e));
            if e.Fails? then s' == s.(busy := false, ops := [])
            else s' == s.(busy := false, ops := [], preview := None,
                          channels := s.channels + {(s.ops[0].preview.sender, s.ops[0].preview.recipient)})
  {
    hide Run;
    var s := Run(actions);
    assert s.ops == [s.ops[0]];
    assert s.ops[..0] + s.ops[1..] == [];
  }

  /** A scan by the actor, with one decrypted tag. */
  function ScanSteps(p: Payload): seq<Action> {
    [Start(ReadingScanner), Advance(0, Succeeds), Advance(0, Succeeds), Advance(0, Decrypted(Some(p))),
     Advance(0, Succeeds)]
  }

  /** From every reached idle state the actor finds a note of its own that it has not discovered yet: scanning its tag
      moves the note's amount from pending to balance, and leaves every other note alone. */
  lemma {:induction false} ScanFinds(actions: seq<Action>, i: nat)
    requires var s := Run(actions);
             && !s.busy && s.registered && 0 <= s.actor < PARTIES && i < |s.book.notes|
             && s.book.notes[i].owner == s.actor && !s.book.notes[i].discovered && !s.book.notes[i].spent
             && forall j :: 0 <= j < i ==> s.book.notes[j].commitment != s.book.notes[i].commitment
    ensures var s := Run(actions);
            var n := s.book.notes[i];
            var s' := Run(actions + ScanSteps(Payload(n.salt, n.amount, n.tokenId)));
            && !s'.busy && s'.book.notes == s.book.notes[i := n.(discovered := true)]
            && BalanceOf(s'.book.notes, s.actor) == BalanceOf(s.book.notes, s.actor) + n.amount
            && PendingOf(s'.book.notes, s.actor) == PendingOf(s.book.notes, s.actor) - n.amount
  {
    hide Run, BookOk, Accounted, BalanceOf, PendingOf, Discover, Matches, KeysOk, Settled, RegistrationStep,
         PaymentStep, ChannelStep;
    var s := Run(actions);
    var n := s.book.notes[i];
    var p := Payload(n.salt, n.amount, n.tokenId);
    RunInv(actions);
    var t := ScanSteps(p);
    assert s.ops == [];
    RunExtend(actions, t[0]);
    RunExtend(actions + [t[0]], t[1]);
    RunExtend(actions + [t[0]] + [t[1]], t[2]);
    RunExtend(actions + [t[0]] + [t[1]] + [t[2]], t[3]);
    RunExtend(actions + [t[0]] + [t[1]] + [t[2]] + [t[3]], t[4]);
    assert actions + t == actions + [t[0]] + [t[1]] + [t[2]] + [t[3]] + [t[4]];
    var scanning := actions + [t[0]] + [t[1]] + [t[2]];
    assert Run(scanning) == s.(busy := true, ops := [Scanning(s.actor)]);
    SettledParty(s.keys, s.actor);
    OwnMatches(s, i);
    ScanExact(scanning, p, s.actor);
  }

  lemma OwnMatches(s: State, i: nat)
    requires Inv(s) && s.registered && 0 <= s.actor < PARTIES && i < |s.book.notes|
    requires s.book.notes[i].owner == s.actor
    requires forall j :: 0 <= j < i ==> s.book.notes[j].commitment != s.book.notes[i].commitment
    ensures var n := s.book.notes[i];
            Matches(s.book.notes, KeyOf(s.keys.known, s.actor), Payload(n.salt, n.amount, n.tokenId), i)
  {
    hide Accounted, Holdings, KeysOk;
    SettledParty(s.keys, s.actor);
    assert OpensUnder(s.book.notes[i], s.keys.known[s.actor].value);
  }

  /** The laws above are not about unreachable states: a fresh session can complete a payment of 30. */
  lemma {:induction false} SomePayment() returns (actions: seq<Action>, n: nat)
    ensures var s, s' := Run(actions), Run(actions + PaymentSteps(1, 30, n, 0, 0));
            && s.registered && s.actor == 0 && n < |s.book.notes|
            && s'.book.notes == AfterPayment(s.book.notes, s.book.noteSeq, n, 1, 30,
                                             MakeOutputs(s, 0, 1, 30, s.book.notes[n], 0, 0))
  {
    hide Run, AfterPayment, MakeOutputs, SmallestSufficient;
    actions, n := ReadyToPay();
    PaymentGoesThrough(actions, 1, 30, n, 0, 0);
  }

  lemma EmptyRun()
    ensures Run([]) == Initial()
  {
  }
}
