/** The Retail engine as one mutable object. Each method runs one atomic segment in place; its new state is
    `Next` of the old one, so `RetailRuns` speaks about every sequence of calls. */
module RetailEngine {
  import opened Wrappers
  import opened Amounts
  import opened Merkle
  import opened Retail

  class Engine {
    const w: World
    var publicBalance: int
    ghost var minted: int
    var notes: seq<Note>
    var leaves: seq<Leaf>
    var txs: seq<Tx>
    var channels: seq<Channel>
    var activity: bool
    var ops: seq<Op>
    var traffic: bool
    var nextSalt: nat

    ghost function Ledger(): Book
      reads this
    {
      Book(publicBalance, minted, notes, leaves, txs)
    }

    ghost function View(): State
      reads this
    {
      State(Ledger(), channels, activity, ops, traffic, nextSalt)
    }

    constructor (w: World)
      ensures this.w == w && View() == INITIAL
    {
      this.w := w;
      publicBalance, minted, notes, leaves, txs := 0, 0, [], [], [];
      channels, activity, ops, traffic, nextSalt := [], false, [], false, 0;
    }

    /** `appendNotes`: push the transaction and its leaves, then one note per payload at its looked-up leaf. */
    method Append(tx: Tx, payloads: seq<Payload>)
      modifies this`notes, this`leaves, this`txs
      ensures Ledger() == AppendNotes(old(Ledger()), tx, payloads)
    {
      txs := txs + [tx];
      PushLeaves(tx.id, payloads);
      PushNotes(tx.id, tx.kind, payloads);
    }

    method PushLeaves(tx: nat, payloads: seq<Payload>)
      modifies this`leaves
      ensures leaves == old(leaves) + LeavesOf(tx, payloads)
    {
      for i := 0 to |payloads|
        invariant leaves == old(leaves) + LeavesOf(tx, payloads)[..i]
      {
        leaves := leaves + [Leaf(payloads[i].commitment, tx)];
      }
    }

    method PushNotes(tx: nat, kind: Kind, payloads: seq<Payload>)
      modifies this`notes
      ensures notes == old(notes) + NotesOf(leaves, tx, kind, payloads, 0)
    {
      ghost var target := NotesOf(leaves, tx, kind, payloads, 0);
      for i := 0 to |payloads|
        invariant notes == old(notes) + target[..i]
      {
        var p, at := payloads[i], FindLeaf(leaves, tx, payloads[i].commitment);
        var background := kind == BackgroundShield || kind == BackgroundPayment;
        notes := notes + [Note(p.owner, p.amount, p.salt, p.commitment, at, tx, Unspent, None,
                               background || kind == Shield || i == 1)];
      }
    }

    /** Append a payment's outputs, then mark its input spent by it. */
    method Commit(tx: Tx, input: nat, outputs: seq<Payload>)
      requires input < |notes|
      modifies this`notes, this`leaves, this`txs
      ensures Ledger() == Pay(old(Ledger()), tx, input, outputs)
    {
      Append(tx, outputs);
      notes := notes[input := notes[input].(status := Spent, spentBy := Some(tx.id))];
    }

    method NewTx(kind: Kind) returns (tx: Tx)
      ensures tx == PlainTx(Ledger(), kind)
    {
      tx := Tx(|txs| + 1, kind, None, None, None, [], |notes|, false);
    }

    method FreshPayload(owner: nat, amount: int) returns (p: Payload)
      modifies this`nextSalt
      ensures p == MakePayload(w, owner, amount, old(nextSalt)) && nextSalt == old(nextSalt) + 1
    {
      p := MakePayload(w, owner, amount, nextSalt);
      nextSalt := nextSalt + 1;
    }

    method MintCash(amount: int) returns (ok: bool)
      modifies this
      ensures View() == Next(w, old(View()), StartMint(amount))
      ensures ok <==> !old(activity) && Amount(amount) && old(publicBalance) + amount <= MAX_SAFE
    {
      ok := false;
      if activity || !Amount(amount) || publicBalance + amount > MAX_SAFE { return; }
      var tx := NewTx(Kind.MintCash);
      publicBalance, minted := publicBalance + amount, minted + amount;
      txs := txs + [tx];
      ok := true;
    }

    method BeginShielding(total: int, amounts: seq<int>)
      modifies this
      ensures View() == Next(w, old(View()), StartShield(total, amounts))
    {
      if activity || !GoodShieldPlan(total, amounts, publicBalance) || |leaves| + |amounts| > CAPACITY { return; }
      var output := FreshPayload(0, amounts[0]);
      ops, activity := ops + [Shielding(amounts, 0, output, Derive)], true;
    }

    method BeginChannelSetup(recipient: nat)
      modifies this
      ensures View() == Next(w, old(View()), StartChannel(recipient))
    {
      if activity || recipient == 0 || recipient >= 10 || HasChannel(channels, recipient) { return; }
      ops, activity := ops + [OpeningChannel(recipient, 0)], true;
    }

    method BeginPaying(channelId: Option<nat>, noteId: Option<nat>, amount: int)
      modifies this
      ensures View() == Next(w, old(View()), StartPayment(channelId, noteId, amount))
      ensures !old(activity) && activity ==>
                && |ops| == |old(ops)| + 1 && ops[|ops| - 1].Paying?
                && var op := ops[|ops| - 1];
                   && op.input < |notes| && |op.outputs| == 2
                   && op.outputs[0].owner == op.channel.recipient && op.outputs[0].amount == amount
                   && op.outputs[1].owner == 0 && op.outputs[1].amount == notes[op.input].amount - amount
    {
      hide Root, Siblings, Levels, NoteCommitment, Commitments, FirstAvailable;
      if activity || !Amount(amount) { return; }
      var channel, input := SelectChannel(channels, channelId), SelectInput(notes, noteId, amount);
      if channel.None? || input.None? || |leaves| + 2 > CAPACITY || notes[input.value].leafIndex < 0 { return; }
      var n := notes[input.value];
      var paid := FreshPayload(channel.value.recipient, amount);
      var change := FreshPayload(0, n.amount - amount);
      var levels, root := RetailTree(Retail.Commitments(leaves), RETAIL_DEPTH);
      ops := ops + [Paying(input.value, channel.value, [paid, change], root,
                           Siblings(Retail.Commitments(leaves), n.leafIndex, RETAIL_DEPTH),
                           Nullifier(w, 0, n.leafIndex), 0)];
      activity := true;
    }

    method BeginScanning(txId: Option<nat>)
      modifies this
      ensures View() == Next(w, old(View()), StartScan(txId))
    {
      if activity { return; }
      var t := SelectPayment(txs, txId);
      if t.None? || txs[t.value].scanned { return; }
      ops, activity := ops + [Scanning(t.value, 0)], true;
    }

    /** Leave operation i: the `finally` block. */
    method Finish(i: nat)
      requires i < |ops|
      modifies this`ops, this`activity
      ensures ops == old(ops)[..i] + old(ops)[i + 1..] && !activity
    {
      ops, activity := ops[..i] + ops[i + 1..], false;
    }

    method Yield(i: nat, op: Op)
      requires i < |ops|
      modifies this`ops, this`activity
      ensures ops == old(ops)[i := op] && activity
    {
      ops, activity := ops[i := op], true;
    }

    method ResumeShielding(i: nat)
      requires i < |ops| && ops[i].Shielding?
      modifies this
      ensures View() == Next(w, old(View()), Resume(i))
    {
      hide LeavesOf, NotesOf, MakePayload;
      var op := ops[i];
      match op.phase
      case Derive => Yield(i, op.(phase := ShieldPhase.Commit));
      case Commit =>
        publicBalance := publicBalance - op.output.amount;
        var tx := NewTx(Shield);
        Append(tx, [op.output]);
        Yield(i, op.(phase := Inserted));
      case Inserted =>
        if op.index + 1 < |op.amounts| {
          var output := FreshPayload(0, op.amounts[op.index + 1]);
          Yield(i, Shielding(op.amounts, op.index + 1, output, Derive));
        } else {
          Finish(i);
        }
    }

    method ResumeChannelSetup(i: nat)
      requires i < |ops| && ops[i].OpeningChannel?
      modifies this
      ensures View() == Next(w, old(View()), Resume(i))
    {
      var op := ops[i];
      if op.channelStep > 2 {
        Finish(i);
        return;
      }
      if op.channelStep == 2 {
        var tx := NewTx(ConfigureTags);
        txs := txs + [tx];
        channels := channels + [Channel(|channels|, op.recipient)];
      }
      Yield(i, op.(channelStep := op.channelStep + 1));
    }

    method ResumePaying(i: nat)
      requires i < |ops| && ops[i].Paying?
      modifies this
      ensures View() == Next(w, old(View()), Resume(i))
    {
      var op := ops[i];
      if op.paymentStep > 5 {
        Finish(i);
        return;
      }
      if op.paymentStep == 4 {
        if op.input >= |notes| || notes[op.input].status != Unspent
           || exists t :: 0 <= t < |txs| && txs[t].nullifier == Some(op.nullifier) {
          Finish(i);
          return;
        }
        var tx := Tx(|txs| + 1, Payment, Some(op.input), Some(op.nullifier), Some(op.root), op.siblings, |notes|,
                     false);
        Commit(tx, op.input, op.outputs);
      }
      Yield(i, op.(paymentStep := op.paymentStep + 1));
    }

    method ResumeScanning(i: nat)
      requires i < |ops| && ops[i].Scanning?
      modifies this
      ensures View() == Next(w, old(View()), Resume(i))
    {
      var op := ops[i];
      if op.scanStep < 3 {
        Yield(i, op.(scanStep := op.scanStep + 1));
        return;
      }
      if op.tx < |txs| {
        var n := txs[op.tx].firstOutput;
        if n < |notes| {
          notes := notes[n := notes[n].(discovered := true)];
        }
        txs := txs[op.tx := txs[op.tx].(scanned := true)];
        var tx := NewTx(Scan);
        txs := txs + [tx];
      }
      Finish(i);
    }

    method SetTraffic(on: bool)
      modifies this
      ensures View() == Next(w, old(View()), Action.SetTraffic(on))
    {
      traffic := on;
    }

    /** One firing of the timer: `retailTraffic`. */
    method TrafficTick()
      modifies this
      ensures View() == Next(w, old(View()), Tick)
    {
      hide BackgroundDeposit, BackgroundPay;
      if !traffic || activity { return; }
      if |leaves| > 253 {
        traffic := false;
        return;
      }
      var count := BackgroundCount(txs);
      var owner, recipient := 1 + count % 9, 1 + (count + 2) % 9;
      var input := FirstAvailable(notes, owner, 0);
      if input.None? {
        TrafficDeposit(owner);
      } else {
        TrafficPayment(owner, recipient, input.value);
      }
    }

    method TrafficDeposit(owner: nat)
      modifies this`notes, this`leaves, this`txs, this`nextSalt
      ensures Ledger() == BackgroundDeposit(w, old(Ledger()), owner, old(nextSalt)) && nextSalt == old(nextSalt) + 1
    {
      var p := FreshPayload(owner, DEPOSIT);
      var tx := NewTx(BackgroundShield);
      Append(tx, [p]);
    }

    method TrafficPayment(owner: nat, recipient: nat, input: nat)
      requires input < |notes|
      modifies this`notes, this`leaves, this`txs, this`nextSalt
      ensures Ledger() == BackgroundPay(w, old(Ledger()), owner, recipient, input, old(nextSalt))
      ensures nextSalt == old(nextSalt) + 2
    {
      var held := notes[input];
      var amount := if held.amount < 10 then held.amount else 10;
      var paid := FreshPayload(recipient, amount);
      var change := FreshPayload(owner, held.amount - amount);
      var tx := Tx(|txs| + 1, BackgroundPayment, Some(input), Some(Nullifier(w, owner, held.leafIndex)), None, [],
                   |notes|, false);
      Commit(tx, input, [paid, change]);
    }
  }
}
