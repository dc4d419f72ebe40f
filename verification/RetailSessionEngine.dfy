/** The retail session as one mutable object. Each method runs one section under the mutex in place; its new state is
    `Next` of the old one, so `RetailSessionRuns` speaks about every sequence of calls. */
module RetailSessionEngine {
  import opened Wrappers
  import opened RetailSession

  // ---------- sorting by amount ----------

  predicate Positions(notes: seq<Note>, r: seq<nat>) {
    forall i :: 0 <= i < |r| ==> r[i] < |notes|
  }

  predicate ByAmount(notes: seq<Note>, r: seq<nat>)
    requires Positions(notes, r)
  {
    |r| >= 2 ==> notes[r[0]].amount <= notes[r[1]].amount && ByAmount(notes, r[1..])
  }

  function InsertBy(notes: seq<Note>, k: nat, r: seq<nat>): (r': seq<nat>)
    requires Positions(notes, r) && k < |notes|
    ensures Positions(notes, r')
  {
    if r == [] || notes[k].amount <= notes[r[0]].amount then [k] + r else [r[0]] + InsertBy(notes, k, r[1..])
  }

  /** The comparison sort of the note list. */
  function SortBy(notes: seq<Note>, r: seq<nat>): (r': seq<nat>)
    requires Positions(notes, r)
    ensures Positions(notes, r')
  {
    if r == [] then [] else InsertBy(notes, r[0], SortBy(notes, r[1..]))
  }

  lemma {:induction false} InsertByOrders(notes: seq<Note>, k: nat, r: seq<nat>)
    requires Positions(notes, r) && k < |notes| && ByAmount(notes, r)
    ensures ByAmount(notes, InsertBy(notes, k, r))
  {
    var r' := InsertBy(notes, k, r);
    if r != [] && notes[k].amount > notes[r[0]].amount {
      InsertByOrders(notes, k, r[1..]);
      assert r'[1..] == InsertBy(notes, k, r[1..]);
    } else {
      assert r'[1..] == r;
    }
  }

  lemma {:induction false} InsertByPermutes(notes: seq<Note>, k: nat, r: seq<nat>)
    requires Positions(notes, r) && k < |notes|
    ensures multiset(InsertBy(notes, k, r)) == multiset(r) + multiset{k}
  {
    hide ByAmount;
    if r != [] && notes[k].amount > notes[r[0]].amount {
      InsertByPermutes(notes, k, r[1..]);
      assert r == [r[0]] + r[1..] && InsertBy(notes, k, r) == [r[0]] + InsertBy(notes, k, r[1..]);
    }
  }

  lemma {:induction false} SortByOrders(notes: seq<Note>, r: seq<nat>)
    requires Positions(notes, r)
    ensures ByAmount(notes, SortBy(notes, r))
  {
    hide InsertBy;
    if r != [] {
      SortByOrders(notes, r[1..]);
      InsertByOrders(notes, r[0], SortBy(notes, r[1..]));
    }
  }

  lemma {:induction false} SortByPermutes(notes: seq<Note>, r: seq<nat>)
    requires Positions(notes, r)
    ensures multiset(SortBy(notes, r)) == multiset(r)
  {
    hide InsertBy, ByAmount;
    if r != [] {
      SortByPermutes(notes, r[1..]);
      InsertByPermutes(notes, r[0], SortBy(notes, r[1..]));
      assert r == [r[0]] + r[1..];
    }
  }

  lemma {:induction false} Ordered(notes: seq<Note>, r: seq<nat>, i: nat, j: nat)
    requires Positions(notes, r) && ByAmount(notes, r) && i <= j < |r|
    ensures notes[r[i]].amount <= notes[r[j]].amount
  {
    if i > 0 {
      Ordered(notes, r[1..], i - 1, j - 1);
    } else if j > 0 {
      Ordered(notes, r[1..], 0, j - 1);
    }
  }

  /** Once each, in some order. */
  ghost predicate EachOnce(r: seq<nat>) {
    forall x :: x in r ==> multiset(r)[x] == 1
  }

  // ---------- the session object ----------

  class Session {
    var notes: seq<Note>
    var noteSeq: nat
    var nullified: set<nat>
    ghost var lost: set<nat>
    ghost var seeded: int
    var keys: Keys
    var channels: set<(int, nat)>
    var preview: Option<Preview>
    var previewSeq: nat
    var previews: seq<Preview>
    var registered: bool
    var actor: int
    var busy: bool
    var ops: seq<Op>

    ghost function Notes(): Book
      reads this
    {
      Book(notes, noteSeq, nullified, lost, seeded)
    }

    ghost function View(): State
      reads this
    {
      State(Notes(), keys, channels, preview, previewSeq, previews, registered, actor, busy, ops)
    }

    constructor ()
      ensures View() == Initial()
    {
      notes, noteSeq, nullified, lost, seeded := [], 0, {}, {}, 0;
      keys := Keys(Blank(), Blank(), Blank(), 0);
      channels, preview, previewSeq, previews := {}, None, 0, [];
      registered, actor, busy, ops := false, -1, false, [];
    }

    /** `begin`: the gate refuses a second action. */
    method Begin(op: Op) returns (ok: bool)
      requires Entry(op)
      modifies this`busy, this`ops
      ensures ok <==> !old(busy)
      ensures View() == Next(old(View()), Start(op))
    {
      ok := !busy;
      if ok {
        busy, ops := true, ops + [op];
      }
    }

    /** `end`: action i leaves and frees the gate. */
    method End(i: nat)
      requires i < |ops|
      modifies this`busy, this`ops
      ensures ops == old(ops)[..i] + old(ops)[i + 1..] && !busy
    {
      busy, ops := false, ops[..i] + ops[i + 1..];
    }

    method Wait(i: nat, op: Op)
      requires i < |ops|
      modifies this`ops
      ensures ops == old(ops)[i := op]
    {
      ops := ops[i := op];
    }

    method SwitchActor(party: nat)
      modifies this`actor
      ensures View() == Next(old(View()), SetActor(party))
    {
      if busy || party >= PARTIES || !Controllable(party) || party >= |keys.known|
         || keys.known[party].None? { return; }
      actor := party;
    }

    method BeginPreview(recipient: nat)
      modifies this`previews
      ensures View() == Next(old(View()), StartPreview(recipient))
    {
      if busy { return; }
      previews := previews + [Preview(0, actor, recipient)];
    }

    method EndPreview(j: nat, ok: bool)
      modifies this`preview, this`previewSeq, this`previews
      ensures View() == Next(old(View()), FinishPreview(j, ok))
    {
      if j >= |previews| { return; }
      var p := previews[j];
      previews := previews[..j] + previews[j + 1..];
      if ok && registered && 0 <= p.sender < PARTIES && p.recipient < PARTIES && p.sender != p.recipient
         && p.recipient < |keys.known| && keys.known[p.recipient].Some? {
        previewSeq := previewSeq + 1;
        preview := Some(Preview(previewSeq, p.sender, p.recipient));
      }
    }

    // ---------- registration ----------

    method Register(i: nat, e: Event)
      requires i < |ops| && (ops[i].CheckingRegistered? || ops[i].MakingKeys? || ops[i].Submitting?)
      modifies this`keys, this`busy, this`ops
      ensures View() == Next(old(View()), Advance(i, e))
    {
      hide ChannelStep, PaymentStep, ScanStep, Seed, Commit;
      match ops[i]
      case CheckingRegistered =>
        if registered || e.Fails? {
          End(i);
        } else {
          Wait(i, MakingKeys(0));
        }
      case MakingKeys(j) =>
        if e.Fails? || j >= |keys.local| {
          End(i);
          return;
        }
        keys := keys.(local := keys.local[j := Some(keys.next)], next := keys.next + 1);
        Wait(i, if j + 1 < PARTIES then MakingKeys(j + 1) else Submitting(0));
      case Submitting(j) =>
        if e.Fails? || j >= |keys.local| || j >= |keys.chain| || j >= |keys.known| || keys.chain[j].Some?
           || keys.local[j].None? {
          End(i);
          return;
        }
        keys := keys.(chain := keys.chain[j := keys.local[j]]);
        if e.MinedUnread? {
          End(i);
          return;
        }
        keys := keys.(known := keys.known[j := keys.local[j]]);
        Wait(i, if j + 1 < PARTIES then Submitting(j + 1) else Seeding(0));
    }

    /** One round of `seedControllableParties`, or the end of the registration. */
    method SeedParty(i: nat, e: Event)
      requires i < |ops| && ops[i].Seeding?
      modifies this`notes, this`noteSeq, this`seeded, this`registered, this`busy, this`ops
      ensures View() == Next(old(View()), Advance(i, e))
    {
      hide ChannelStep, PaymentStep, ScanStep;
      var j := ops[i].party;
      if j >= PARTIES {
        registered := true;
        End(i);
      } else if !Controllable(j) {
        Wait(i, Seeding(j + 1));
      } else if !e.Deposited? {
        End(i);
      } else {
        Deposit(j, e.salt);
        Wait(i, Seeding(j + 1));
      }
    }

    method Deposit(party: nat, salt: int)
      modifies this`notes, this`noteSeq, this`seeded
      ensures Notes() == Seed(old(Notes()), party, KeyOf(keys.local, party), salt)
    {
      noteSeq := noteSeq + 1;
      notes := notes + [Note(noteSeq, party, SEED, SEED_TOKEN, salt,
                             Commit(KeyOf(keys.local, party), Payload(salt, SEED, SEED_TOKEN)), false, true)];
      seeded := seeded + SEED;
    }

    // ---------- channels ----------

    method OpenChannel(i: nat, e: Event)
      requires i < |ops| && (ops[i].ReadingPreview? || ops[i].Publishing?)
      modifies this`channels, this`preview, this`busy, this`ops
      ensures View() == Next(old(View()), Advance(i, e))
    {
      hide RegistrationStep, PaymentStep, ScanStep;
      match ops[i]
      case ReadingPreview(requested) =>
        if preview.None? || e.Fails? || (requested.Some? && requested.value != preview.value.id) {
          End(i);
        } else {
          Wait(i, Publishing(preview.value));
        }
      case Publishing(p) =>
        if !e.Fails? {
          channels, preview := channels + {(p.sender, p.recipient)}, None;
        }
        End(i);
    }

    // ---------- payments ----------

    /** `spendableNotes`: the positions of the owner's spendable notes, each once, smallest amount first. */
    method SpendableNotes(owner: nat) returns (r: seq<nat>)
      ensures Positions(notes, r) && ByAmount(notes, r) && EachOnce(r)
      ensures forall j: nat :: j in r <==> j < |notes| && Spendable(notes[j], owner)
    {
      var found: seq<nat> := [];
      for k := 0 to |notes|
        invariant forall j: nat :: j in found <==> j < k && Spendable(notes[j], owner)
        invariant EachOnce(found)
      {
        if Spendable(notes[k], owner) {
          assert k !in found && multiset(found)[k] == 0;
          found := found + [k];
        }
      }
      forall i | 0 <= i < |found| ensures found[i] < |notes| {
        assert found[i] in found;
      }
      SortByOrders(notes, found);
      SortByPermutes(notes, found);
      r := SortBy(notes, found);
      forall x: nat ensures x in r <==> x in found {
        assert x in multiset(r) <==> x in multiset(found);
      }
    }

    /** The selection loop of `sendPayment`: the first sufficient note in the sorted list. */
    method SelectNote(owner: nat, amount: int) returns (r: Option<nat>)
      ensures r.Some? ==> SmallestSufficient(notes, owner, amount, r.value)
      ensures r.None? ==> NoneSufficient(notes, owner, amount)
    {
      var list := SpendableNotes(owner);
      for i := 0 to |list|
        invariant forall k :: 0 <= k < i ==> notes[list[k]].amount < amount
      {
        assert list[i] in list;
        if notes[list[i]].amount >= amount {
          forall j: nat | j < |notes| && Spendable(notes[j], owner) && notes[j].amount >= amount
            ensures notes[list[i]].amount <= notes[j].amount
          {
            var k :| 0 <= k < |list| && list[k] == j;
            Ordered(notes, list, i, k);
          }
          return Some(list[i]);
        }
      }
      forall j: nat | j < |notes| && Spendable(notes[j], owner) ensures notes[j].amount < amount {
        assert j in list;
      }
      return None;
    }

    /** The sections that read the actor, the registration and the channel. */
    method CheckPayment(i: nat, e: Event)
      requires i < |ops| && (ops[i].ReadingSender? || ops[i].CheckingPayment? || ops[i].ReadingChannel?)
      modifies this`busy, this`ops
      ensures View() == Next(old(View()), Advance(i, e))
    {
      hide RegistrationStep, ChannelStep, ScanStep, SmallestSufficient, NoneSufficient, MakeOutputs, BookPayment;
      match ops[i]
      case ReadingSender(recipient, amount) => Wait(i, CheckingPayment(actor, recipient, amount));
      case CheckingPayment(sender, recipient, amount) =>
        if registered && 0 <= sender < PARTIES && recipient < PARTIES && sender != recipient && Controllable(recipient)
           && amount > 0 {
          Wait(i, ReadingChannel(sender, recipient, amount));
        } else {
          End(i);
        }
      case ReadingChannel(sender, recipient, amount) =>
        if (sender, recipient) in channels {
          Wait(i, Selecting(sender, recipient, amount));
        } else {
          End(i);
        }
    }

    /** The section that selects the input note. */
    method SelectInput(i: nat) returns (n: nat)
      requires i < |ops| && ops[i].Selecting?
      modifies this`busy, this`ops
      ensures View() == Next(old(View()), Advance(i, Selected(n)))
    {
      hide RegistrationStep, ChannelStep, ScanStep, MakeOutputs, BookPayment, SmallestSufficient, NoneSufficient;
      var op := ops[i];
      var input := SelectNote(op.sender, op.amount);
      n := 0;
      if input.Some? {
        SomeIsSufficient(notes, op.sender, op.amount, input.value);
        n := input.value;
        Wait(i, Proving(op.sender, op.recipient, op.amount, n));
      } else {
        End(i);
      }
    }

    /** Proof and relay; the chain refuses a nullifier it has seen. */
    method ProvePayment(i: nat, e: Event)
      requires i < |ops| && ops[i].Proving?
      modifies this`nullified, this`lost, this`busy, this`ops
      ensures View() == Next(old(View()), Advance(i, e))
    {
      hide RegistrationStep, ChannelStep, ScanStep, SmallestSufficient, NoneSufficient, BookPayment;
      var op := ops[i];
      if !(e.Mined? || e.MinedUnread?) || op.input >= |notes| || notes[op.input].id in nullified {
        End(i);
        return;
      }
      var input := notes[op.input];
      nullified := nullified + {input.id};
      if e.MinedUnread? {
        lost := lost + {input.id};
        End(i);
        return;
      }
      var change := Commit(KeyOf(keys.local, op.sender),
                           Payload(e.changeSalt, input.amount - op.amount, input.tokenId));
      var pay := Commit(KeyOf(keys.known, op.recipient), Payload(e.paySalt, op.amount, input.tokenId));
      Wait(i, Tagging(op.sender, op.recipient, op.amount, op.input, Outputs(e.changeSalt, e.paySalt, change, pay)));
    }

    /** The tag is published and the payment booked, or it is lost. */
    method FinishPayment(i: nat, e: Event)
      requires i < |ops| && ops[i].Tagging?
      modifies this`notes, this`noteSeq, this`lost, this`busy, this`ops
      ensures View() == Next(old(View()), Advance(i, e))
    {
      hide RegistrationStep, ChannelStep, ScanStep, SmallestSufficient, NoneSufficient, MakeOutputs, BookPayment;
      var op := ops[i];
      if op.input < |notes| {
        if e.Succeeds? {
          BookOutputs(op.input, op.recipient, op.amount, op.outputs);
        } else {
          lost := lost + {notes[op.input].id};
        }
      }
      End(i);
    }

    method BookOutputs(n: nat, recipient: nat, amount: int, o: Outputs)
      requires n < |notes|
      modifies this`notes, this`noteSeq
      ensures Notes() == BookPayment(old(Notes()), n, recipient, amount, o)
    {
      var input := notes[n];
      var change := input.amount - amount;
      notes := notes[n := input.(spent := true)];
      if change > 0 {
        notes := notes + [Note(noteSeq + 1, input.owner, change, input.tokenId, o.changeSalt, o.changeCommitment,
                               false, true)];
        noteSeq := noteSeq + 1;
      }
      notes := notes + [Note(noteSeq + 1, recipient, amount, input.tokenId, o.paySalt, o.payCommitment, false, false)];
      noteSeq := noteSeq + 1;
    }

    // ---------- scans ----------

    /** The sections of a scan; each decrypted tag is matched under the mutex. */
    method Scan(i: nat, e: Event)
      requires i < |ops| && (ops[i].ReadingScanner? || ops[i].CheckingScan? || ops[i].Scanning?)
      modifies this`notes, this`busy, this`ops
      ensures View() == Next(old(View()), Advance(i, e))
    {
      hide RegistrationStep, ChannelStep, PaymentStep, Discover;
      match ops[i]
      case ReadingScanner => Wait(i, CheckingScan(actor));
      case CheckingScan(scanner) =>
        if !registered || scanner < 0 || scanner >= PARTIES || e.Fails? {
          End(i);
        } else {
          Wait(i, Scanning(scanner));
        }
      case Scanning(scanner) =>
        if !e.Decrypted? {
          End(i);
        } else if e.payload.Some? {
          DiscoverNote(KeyOf(keys.known, scanner), e.payload.value);
        }
    }

    method DiscoverNote(key: nat, p: Payload)
      modifies this`notes
      ensures notes == Discover(old(notes), key, p)
      ensures forall i: nat :: Matches(old(notes), key, p, i) ==>
                |notes| == |old(notes)| && notes[i].discovered
                && forall j :: 0 <= j < |notes| && j != i ==> notes[j] == old(notes)[j]
      ensures (forall i: nat :: !Matches(old(notes), key, p, i)) ==> notes == old(notes)
    {
      var i := 0;
      while i < |notes| && notes[i].commitment != Commit(key, p)
        invariant 0 <= i <= FirstMatch(notes, Commit(key, p))
      {
        i := i + 1;
      }
      assert i < |notes| ==> Matches(notes, key, p, i);
      if i < |notes| && !notes[i].discovered {
        notes := notes[i := notes[i].(discovered := true, salt := p.salt)];
      }
    }
  }

  lemma SomeIsSufficient(notes: seq<Note>, owner: nat, amount: int, n: nat)
    requires SmallestSufficient(notes, owner, amount, n)
    ensures !NoneSufficient(notes, owner, amount)
  {
  }
}
