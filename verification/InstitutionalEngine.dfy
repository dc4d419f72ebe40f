/** The same steps as updates in place of one mutable ledger object. Each method's new state is `Next` of
    the old one, so `InstitutionalRuns` speaks about every sequence of calls. */
module InstitutionalEngine {
  import opened Wrappers
  import opened Group
  import opened Institutional
  import opened InstitutionalRequests

  class Ledger<P(==, !new)> {
    const w: World<P>
    var accounts: seq<Account<P>>
    var totalSupplyAmount: int
    var totalSupplyCommitment: P
    var epoch: int
    var channels: bool
    var paused: bool
    var frozen: set<int>
    var drafts: seq<Draft<P>>
    var current: Option<nat>
    var posts: seq<Post>
    var settled: seq<Batch<P>>

    ghost function View(): State<P>
      reads this
    {
      State(accounts, totalSupplyAmount, totalSupplyCommitment, epoch, channels, paused, frozen, drafts, current,
            posts, settled)
    }

    /** `institutionalState` once all ten parties are registered. */
    constructor (w: World<P>)
      requires Lawful(w.g)
      ensures this.w == w && View() == Initial(w)
    {
      var zero := Pedersen(w.g, 0, 0);
      this.w := w;
      accounts := seq(NUM_PARTIES, (i: nat) => Account(0, 0, zero));
      totalSupplyAmount := 0;
      totalSupplyCommitment := SumOf(w.g, seq(NUM_PARTIES, (i: nat) => zero));
      epoch, channels, paused, frozen := 9000, false, false, {};
      drafts, current, posts, settled := [], None, [], [];
    }

    method EstablishChannels()
      requires Lawful(w.g)
      modifies this
      ensures View() == Next(w, old(View()), Action.EstablishChannels)
    {
      channels := true;
    }

    method Fund(owner: bool, recipientId: int, amount: int) returns (r: Result<P>)
      requires Lawful(w.g)
      modifies this
      ensures View() == Next(w, old(View()), Action.Fund(owner, recipientId, amount))
      ensures r.Ok? <==> MayMint(old(View()), owner, recipientId, amount)
      ensures r.Ok? ==> Minted(w.g, old(View()), View(), recipientId, amount)
                        && r.value == accounts[recipientId - 1].commitment
      ensures r.Err? ==> View() == old(View())
    {
      hide Minted, Pedersen;
      MintExact(w, View(), owner, recipientId, amount);
      if !owner { return Err("only the owner mints"); }
      if paused { return Err("paused"); }
      if !Registered(accounts, recipientId) { return Err("unknown recipient"); }
      if amount < 1 || amount > MAX_MINT { return Err("amount out of range"); }
      var recipient := accounts[recipientId - 1];
      if !SafeInteger(totalSupplyAmount + amount) || !SafeInteger(recipient.balance + amount) {
        return Err("balance range exceeded");
      }
      var commitment := ComputePedersen(w.g, amount, 0);
      var nextBalance := w.g.add(recipient.commitment, commitment);
      var nextSupply := w.g.add(totalSupplyCommitment, commitment);
      accounts := accounts[recipientId - 1 := Account(recipient.balance + amount, recipient.randomness, nextBalance)];
      totalSupplyAmount := totalSupplyAmount + amount;
      totalSupplyCommitment := nextSupply;
      epoch := epoch + 1;
      current := None;
      return Ok(nextBalance);
    }

    method Calculate(input: PaymentInput) returns (r: Result<Batch<P>>)
      requires Lawful(w.g)
      modifies this
      ensures View() == Next(w, old(View()), Action.Calculate(input))
      ensures r == Build(w, old(View()), input)
      ensures r.Ok? <==> Payable(old(View()), input)
      ensures r.Ok? ==> Carries(w.g, old(View()), input, r.value)
                        && |drafts| > 0 && current == Some(|drafts| - 1) && drafts[|drafts| - 1].batch == r.value
      ensures r.Err? ==> View() == old(View())
    {
      hide Payable, Carries, Build;
      BuildAccepts(w, View(), input);
      if Build(w, View(), input).Ok? {
        BuildCarries(w, View(), input);
      }
      r := Build(w, State(accounts, totalSupplyAmount, totalSupplyCommitment, epoch, channels, paused, frozen, drafts,
                          current, posts, settled), input);
      if r.Ok? {
        drafts, current := drafts + [Draft(r.value, Calculated, 0, None)], Some(|drafts|);
      }
    }

    method EditPayment()
      requires Lawful(w.g)
      modifies this
      ensures View() == Next(w, old(View()), Action.EditPayment)
    {
      current := None;
    }

    /** The checks shared by `prove` and `post`: validate, then rebuild and compare the binding. */
    method Check(b: Batch<P>) returns (ok: bool)
      requires Lawful(w.g)
      ensures ok == CanProve(w, View(), b)
    {
      var s := State(accounts, totalSupplyAmount, totalSupplyCommitment, epoch, channels, paused, frozen, drafts,
                     current, posts, settled);
      if !Validates(w, s, b) { return false; }
      var expected := Build(w, s, InputOf(b));
      return expected.Ok? && BindingOf(expected.value) == BindingOf(b);
    }

    method Prove() returns (ok: bool)
      requires Lawful(w.g)
      modifies this
      ensures View() == Next(w, old(View()), Action.Prove)
      ensures ok ==> HasDraft(View()) && drafts[current.value].proof == Some(BindingOf(drafts[current.value].batch))
    {
      if current.None? || current.value >= |drafts| { return false; }
      var d := drafts[current.value];
      ok := Check(d.batch);
      if ok {
        drafts := drafts[current.value := Draft(d.batch, Proved, d.verification, Some(BindingOf(d.batch)))];
      }
    }

    method StartPost() returns (ok: bool)
      requires Lawful(w.g)
      modifies this
      ensures View() == Next(w, old(View()), Action.StartPost)
      ensures ok <==> |posts| == |old(posts)| + 1
    {
      hide CanProve;
      if current.None? || current.value >= |drafts| { return false; }
      var d := drafts[current.value];
      ok := Check(d.batch);
      ok := ok && d.proof == Some(BindingOf(d.batch));
      if ok {
        drafts := drafts[current.value := Draft(d.batch, Submitted, 0, d.proof)];
        posts := posts + [Post(current.value, 0, false)];
      }
    }

    /** The row loop of `settleInstitutionalPayment`. */
    method ApplyDraft(rows: seq<Row<P>>)
      requires forall i {:trigger rows[i]} :: 0 <= i < |rows| ==> Registered(accounts, rows[i].accountId)
      modifies this`accounts
      ensures accounts == ApplyRows(old(accounts), rows)
    {
      ghost var target := ApplyRows(accounts, rows);
      for i := 0 to |rows|
        invariant |accounts| == |old(accounts)|
        invariant forall j {:trigger rows[j]} :: 0 <= j < |rows| ==> Registered(accounts, rows[j].accountId)
        invariant forall j {:trigger rows[i..][j]} :: 0 <= j < |rows| - i
                    ==> Registered(accounts, rows[i..][j].accountId)
        invariant ApplyRows(accounts, rows[i..]) == target
      {
        var row := rows[i];
        assert rows[i..][0] == row && rows[i..][1..] == rows[i + 1..];
        accounts := accounts[row.accountId - 1 := Account(row.balance, row.randomness, row.after)];
      }
    }

    /** One resumption of a running post. */
    method ResumePost(n: nat)
      requires Lawful(w.g)
      modifies this
      ensures View() == Next(w, old(View()), Action.ResumePost(n))
    {
      if n >= |posts| || posts[n].done || posts[n].draft >= |drafts| { return; }
      var post := posts[n];
      var d := drafts[post.draft];
      if post.stage < 6 {
        var status := if post.stage == 0 then Verifying else d.status;
        drafts := drafts[post.draft := Draft(d.batch, status, post.stage + 1, d.proof)];
        posts := posts[n := post.(stage := post.stage + 1)];
        return;
      }
      posts := posts[n := post.(done := true)];
      if CanSettle(w, State(accounts, totalSupplyAmount, totalSupplyCommitment, epoch, channels, paused, frozen, drafts,
                            current, posts, settled)) {
        SettleDraft();
      } else {
        drafts := drafts[post.draft := Draft(d.batch, Proved, 0, d.proof)];
      }
    }

    /** `settleInstitutionalPayment` after its checks. */
    method SettleDraft()
      requires w.g.order > 0 && CanSettle(w, View())
      modifies this
      ensures View() == Settle(w, old(View()))
    {
      var c := drafts[current.value];
      ApplyDraft(c.batch.rows);
      drafts := drafts[current.value := Draft(c.batch, Confirmed, c.verification, c.proof)];
      epoch := epoch + 1;
      settled := settled + [c.batch];
    }

    method SetPaused(owner: bool, value: bool)
      requires Lawful(w.g)
      modifies this
      ensures View() == Next(w, old(View()), Action.SetPaused(owner, value))
    {
      if owner { paused := value; }
    }

    method SetFrozen(authorized: bool, id: int, value: bool)
      requires Lawful(w.g)
      modifies this
      ensures View() == Next(w, old(View()), Action.SetFrozen(authorized, id, value))
    {
      if authorized && Registered(accounts, id) {
        frozen := if value then frozen + {id} else frozen - {id};
      }
    }
  }
}
