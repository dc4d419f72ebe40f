/** The account-based commitment ledger: state, payment construction, validation and the step function
    of the engine. Accounts sit at position accountId - 1, as `institutionalState` creates them. */
module Institutional {
  import opened Wrappers
  import opened Amounts
  import opened Hash
  import opened Group
  import opened Sorting

  const MAX_MINT: int := 1_000_000_000
  const NUM_PARTIES: nat := 10

  predicate SafeInteger(n: int) {
    -MAX_SAFE <= n <= MAX_SAFE
  }

  /** What a run is given: the group, every account's spend key, the numeric value of a hash, the domain. */
  datatype World<!P> = World(g: Group<P>, secretKey: int -> int, valueOf: Term -> int, domainId: int)

  datatype Account<P> = Account(balance: int, randomness: int, commitment: P)

  datatype Recipient = Recipient(accountId: int, amount: int)

  datatype Row<P> = Row(accountId: int, value: int, r: int, tag: int, nonce: Term,
                        valuePoint: P, randomPoint: P, delta: P, before: P, after: P,
                        previousBalance: int, previousRandomness: int, balance: int, randomness: int)

  datatype Signal<P> = Scalar(n: int) | Digest(t: Term) | Coordinates(p: P)

  datatype Batch<P> = Batch(k: int, payerId: int, recipients: seq<Recipient>, amount: int, accountIds: seq<int>,
                            rows: seq<Row<P>>, epoch: int, nullifier: Term, publicSignals: seq<Signal<P>>)

  /** `institutionalBinding`: the serialized fields that a proof commits to. */
  datatype Binding<P> = Binding(accountIds: seq<int>, publicSignals: seq<Signal<P>>, rows: seq<Row<P>>, nullifier: Term)

  datatype Status = Calculated | Proved | Submitted | Verifying | Confirmed

  datatype Draft<P> = Draft(batch: Batch<P>, status: Status, verification: nat, proof: Option<Binding<P>>)

  /** A `post` between two yields: the draft object it captured and how often it has resumed. */
  datatype Post = Post(draft: nat, stage: nat, done: bool)

  /** `drafts` holds every draft object ever calculated, since running posts keep references to them;
      `current` is `s.draft`. `settled` collects the batches of the payment transactions. */
  datatype State<P> = State(accounts: seq<Account<P>>, totalSupplyAmount: int, totalSupplyCommitment: P,
                            epoch: int, channels: bool, paused: bool, frozen: set<int>,
                            drafts: seq<Draft<P>>, current: Option<nat>, posts: seq<Post>, settled: seq<Batch<P>>)

  datatype PaymentInput = PaymentInput(k: int, payerId: int, accountIds: seq<int>, recipients: seq<Recipient>)

  function BindingOf<P>(b: Batch<P>): Binding<P> {
    Binding(b.accountIds, b.publicSignals, b.rows, b.nullifier)
  }

  function InputOf<P>(b: Batch<P>): PaymentInput {
    PaymentInput(b.k, b.payerId, b.accountIds, b.recipients)
  }

  function Initial<P>(w: World<P>): State<P>
    requires w.g.order > 0
  {
    var zero := Pedersen(w.g, 0, 0);
    var accounts := seq(NUM_PARTIES, (i: nat) => Account(0, 0, zero));
    State(accounts, 0, SumOf(w.g, seq(NUM_PARTIES, (i: nat) => zero)), 9000, false, false, {}, [], None, [], [])
  }

  predicate Registered<P>(accounts: seq<Account<P>>, id: int) {
    1 <= id <= |accounts|
  }

  // ---------- minting ----------

  function MintError<P>(s: State<P>, owner: bool, recipientId: int, amount: int): Option<string> {
    if !owner then Some("only the owner mints")
    else if s.paused then Some("paused")
    else if !Registered(s.accounts, recipientId) then Some("unknown recipient")
    else if amount < 1 || amount > MAX_MINT then Some("amount out of range")
    else if !SafeInteger(s.totalSupplyAmount + amount) || !SafeInteger(s.accounts[recipientId - 1].balance + amount)
    then Some("balance range exceeded")
    else None
  }

  /** `mintInstitutional`: v·G with no randomness onto the recipient and the total supply. */
  function Mint<P>(w: World<P>, s: State<P>, owner: bool, recipientId: int, amount: int): State<P>
    requires w.g.order > 0
  {
    if MintError(s, owner, recipientId, amount).Some? then s
    else
      var a := s.accounts[recipientId - 1];
      var c := Pedersen(w.g, amount, 0);
      s.(accounts := s.accounts[recipientId - 1 := Account(a.balance + amount, a.randomness, w.g.add(a.commitment, c))],
         totalSupplyAmount := s.totalSupplyAmount + amount,
         totalSupplyCommitment := w.g.add(s.totalSupplyCommitment, c),
         epoch := s.epoch + 1, current := None)
  }

  // ---------- payment construction ----------

  function RecipientIds(rs: seq<Recipient>): (ids: seq<int>)
    ensures |ids| == |rs| && forall i :: 0 <= i < |rs| ==> ids[i] == rs[i].accountId
  {
    if rs == [] then [] else [rs[0].accountId] + RecipientIds(rs[1..])
  }

  function TotalAmount(rs: seq<Recipient>): int {
    if rs == [] then 0 else rs[0].amount + TotalAmount(rs[1..])
  }

  /** `recipients.find(...)?.amount || 0` */
  function AmountFor(rs: seq<Recipient>, id: int): int {
    if rs == [] then 0 else if rs[0].accountId == id then rs[0].amount else AmountFor(rs[1..], id)
  }

  predicate Allowed<P>(s: State<P>, ids: seq<int>) {
    !s.paused && forall i :: 0 <= i < |ids| ==> ids[i] !in s.frozen
  }

  predicate GoodMembers<P>(accounts: seq<Account<P>>, k: int, ids: seq<int>) {
    (k == 2 || k == 6) && |ids| == k && Distinct(ids) && forall i :: 0 <= i < |ids| ==> Registered(accounts, ids[i])
  }

  predicate GoodRecipients(k: int, payerId: int, ids: seq<int>, rs: seq<Recipient>) {
    && 1 <= |rs| <= k - 1
    && payerId in ids
    && (forall i :: 0 <= i < |rs| ==> rs[i].accountId != payerId && rs[i].accountId in ids)
    && Distinct(RecipientIds(rs))
  }

  predicate GoodAmounts(rs: seq<Recipient>) {
    forall i :: 0 <= i < |rs| ==> SafeInteger(rs[i].amount) && rs[i].amount > 0
  }

  /** The checks of `buildInstitutionalPayment` that depend on the request and the balances only. */
  predicate GoodRequest<P>(accounts: seq<Account<P>>, k: int, payerId: int, ids: seq<int>, rs: seq<Recipient>) {
    && GoodMembers(accounts, k, ids) && GoodRecipients(k, payerId, ids, rs) && GoodAmounts(rs)
    && Registered(accounts, payerId)
    && SafeInteger(TotalAmount(rs)) && TotalAmount(rs) <= accounts[payerId - 1].balance
  }

  function ScalarOf<P>(w: World<P>, t: Term): (n: int)
    requires w.g.order > 0
    ensures 0 <= n < w.g.order
  {
    w.valueOf(t) % w.g.order
  }

  /** What the shared secret of two accounts is derived from. */
  function PairTerm(a: int, b: int): Term {
    var low, high := if a <= b then a else b, if a <= b then b else a;
    Hash3(Num(low), Num(high), Num(768))
  }

  function PairSecret<P>(w: World<P>, a: int, b: int): int
    requires w.g.order > 0
  {
    ScalarOf(w, PairTerm(a, b))
  }

  function Fingerprint<P>(w: World<P>, a: int, b: int): int
    requires w.g.order > 0
  {
    if a == b then 0 else ScalarOf(w, Hash1(Num(PairSecret(w, a, b))))
  }

  /** What every slot of a batch is computed from. */
  datatype Context<P> = Context(accounts: seq<Account<P>>, payerId: int, recipients: seq<Recipient>, amount: int,
                                senderSecret: int, nullifier: Term, senderR: int)

  function SlotNonce<P>(c: Context<P>, id: int): Term {
    Hash2(c.nullifier, Hash2(Num(c.payerId), Num(id)))
  }

  function SlotSecret<P>(w: World<P>, c: Context<P>, id: int): int
    requires w.g.order > 0
  {
    if id == c.payerId then c.senderSecret else PairSecret(w, c.payerId, id)
  }

  /** `hashRandom` and `hashTag` keep the two uses of a slot's secret apart. */
  function SlotTerm(purpose: int, secret: int, nonce: Term): Term {
    Hash3(Hash1(Num(purpose)), Num(secret), nonce)
  }

  function SlotR<P>(w: World<P>, c: Context<P>, id: int): int
    requires w.g.order > 0
  {
    ScalarOf(w, SlotTerm(21, SlotSecret(w, c, id), SlotNonce(c, id)))
  }

  function SlotTag<P>(w: World<P>, c: Context<P>, id: int): int
    requires w.g.order > 0
  {
    ScalarOf(w, SlotTerm(12, SlotSecret(w, c, id), SlotNonce(c, id)))
  }

  /** Sum of the other slots' hashes; the payer's randomness delta is its residue. */
  function OthersR<P>(w: World<P>, c: Context<P>, ids: seq<int>): int
    requires w.g.order > 0
  {
    if ids == [] then 0
    else (if ids[0] == c.payerId then 0 else SlotR(w, c, ids[0])) + OthersR(w, c, ids[1..])
  }

  function RowFor<P>(w: World<P>, c: Context<P>, id: int): Row<P>
    requires w.g.order > 0 && Registered(c.accounts, id)
  {
    var a := c.accounts[id - 1];
    var value := if id == c.payerId then -c.amount else AmountFor(c.recipients, id);
    var r := if id == c.payerId then c.senderR else (-SlotR(w, c, id)) % w.g.order;
    var delta := Pedersen(w.g, value, r);
    Row(id, value, r, SlotTag(w, c, id), SlotNonce(c, id), Scale(w.g, value, w.g.G), Scale(w.g, r, w.g.H), delta,
        a.commitment, w.g.add(a.commitment, delta), a.balance, a.randomness,
        a.balance + value, (a.randomness + r) % w.g.order)
  }

  function Rows<P>(w: World<P>, c: Context<P>, ids: seq<int>): (rows: seq<Row<P>>)
    requires w.g.order > 0 && forall i :: 0 <= i < |ids| ==> Registered(c.accounts, ids[i])
    ensures |rows| == |ids| && forall i :: 0 <= i < |ids| ==> rows[i] == RowFor(w, c, ids[i])
  {
    if ids == [] then [] else [RowFor(w, c, ids[0])] + Rows(w, c, ids[1..])
  }

  function NullifierOf(senderSecret: int, epoch: int): Term {
    Hash2(Num(senderSecret), Hash1(Num(epoch)))
  }

  /** What the payer's own secret of a payment is derived from. */
  function SenderTerm(randomness: int, secretKey: int): Term {
    Hash2(Num(randomness), Num(secretKey))
  }

  function ContextOf<P>(w: World<P>, accounts: seq<Account<P>>, epoch: int, payerId: int, ids: seq<int>,
                        rs: seq<Recipient>): Context<P>
    requires w.g.order > 0 && Registered(accounts, payerId)
  {
    var secret := ScalarOf(w, SenderTerm(accounts[payerId - 1].randomness, w.secretKey(payerId)));
    var open := Context(accounts, payerId, rs, TotalAmount(rs), secret, NullifierOf(secret, epoch), 0);
    open.(senderR := OthersR(w, open, ids) % w.g.order)
  }

  /** The fingerprints of one member with every member. */
  function PrintsOf<P>(w: World<P>, a: int, ids: seq<int>): (r: seq<Signal<P>>)
    requires w.g.order > 0
    ensures |r| == |ids| && forall i :: 0 <= i < |ids| ==> r[i] == Scalar(Fingerprint(w, a, ids[i]))
  {
    if ids == [] then [] else [Scalar(Fingerprint(w, a, ids[0]))] + PrintsOf(w, a, ids[1..])
  }

  /** The fingerprint matrix, row by row. */
  function Prints<P>(w: World<P>, rows: seq<int>, ids: seq<int>): seq<Signal<P>>
    requires w.g.order > 0
  {
    if rows == [] then [] else PrintsOf(w, rows[0], ids) + Prints(w, rows[1..], ids)
  }

  /** `spendPublic` of every member. */
  function PublicKeys<P>(w: World<P>, ids: seq<int>): (r: seq<Signal<P>>)
    requires w.g.order > 0
    ensures |r| == |ids|
    ensures forall i :: 0 <= i < |ids| ==>
              r[i] == Scalar(ScalarOf(w, Hash2(Num(w.secretKey(ids[i])), Num(w.secretKey(ids[i])))))
  {
    if ids == [] then []
    else [Scalar(ScalarOf(w, Hash2(Num(w.secretKey(ids[0])), Num(w.secretKey(ids[0])))))] + PublicKeys(w, ids[1..])
  }

  function IdSignals<P>(ids: seq<int>): (r: seq<Signal<P>>)
    ensures |r| == |ids| && forall i :: 0 <= i < |ids| ==> r[i] == Scalar(ids[i])
  {
    if ids == [] then [] else [Scalar(ids[0])] + IdSignals(ids[1..])
  }

  function BeforeSignals<P>(rows: seq<Row<P>>): (r: seq<Signal<P>>)
    ensures |r| == |rows| && forall i :: 0 <= i < |rows| ==> r[i] == Coordinates(rows[i].before)
  {
    if rows == [] then [] else [Coordinates(rows[0].before)] + BeforeSignals(rows[1..])
  }

  function DeltaSignals<P>(rows: seq<Row<P>>): (r: seq<Signal<P>>)
    ensures |r| == |rows| && forall i :: 0 <= i < |rows| ==> r[i] == Coordinates(rows[i].delta)
  {
    if rows == [] then [] else [Coordinates(rows[0].delta)] + DeltaSignals(rows[1..])
  }

  function TagSignals<P>(rows: seq<Row<P>>): (r: seq<Signal<P>>)
    ensures |r| == |rows| && forall i :: 0 <= i < |rows| ==> r[i] == Scalar(rows[i].tag)
  {
    if rows == [] then [] else [Scalar(rows[0].tag)] + TagSignals(rows[1..])
  }

  function Signals<P>(w: World<P>, c: Context<P>, ids: seq<int>, rows: seq<Row<P>>, epoch: int): seq<Signal<P>>
    requires w.g.order > 0
  {
    Prints(w, ids, ids) + PublicKeys(w, ids) + BeforeSignals(rows) + DeltaSignals(rows) + [Digest(Hash1(Num(epoch)))]
    + IdSignals(ids) + TagSignals(rows) + [Digest(c.nullifier), Scalar(w.domainId)]
  }

  /** The batch for a good request, as a function of the accounts and the epoch alone. */
  function BatchFor<P>(w: World<P>, accounts: seq<Account<P>>, epoch: int, k: int, payerId: int, ids: seq<int>,
                       rs: seq<Recipient>): Batch<P>
    requires w.g.order > 0 && GoodRequest(accounts, k, payerId, ids, rs)
  {
    var c := ContextOf(w, accounts, epoch, payerId, ids, rs);
    var rows := Rows(w, c, ids);
    Batch(k, payerId, rs, c.amount, ids, rows, epoch, c.nullifier, Signals(w, c, ids, rows, epoch))
  }

  /** `buildInstitutionalPayment` */
  function Build<P>(w: World<P>, s: State<P>, input: PaymentInput): Result<Batch<P>>
    requires w.g.order > 0
  {
    var ids := Sort(input.accountIds);
    if !s.channels then Err("no channels")
    else if !GoodMembers(s.accounts, input.k, ids) then Err("select exactly k distinct registered users")
    else if !GoodRecipients(input.k, input.payerId, ids, input.recipients) then Err("choose distinct recipients")
    else if !GoodAmounts(input.recipients) then Err("positive whole-token amounts")
    else if !Allowed(s, ids) then Err("paused or frozen")
    else if !GoodRequest(s.accounts, input.k, input.payerId, ids, input.recipients) then Err("exceeds balance")
    else Ok(BatchFor(w, s.accounts, s.epoch, input.k, input.payerId, ids, input.recipients))
  }

  // ---------- validation ----------

  function SumValues<P>(rows: seq<Row<P>>): int {
    if rows == [] then 0 else rows[0].value + SumValues(rows[1..])
  }

  function SumRandom<P>(rows: seq<Row<P>>): int {
    if rows == [] then 0 else rows[0].r + SumRandom(rows[1..])
  }

  function Deltas<P>(rows: seq<Row<P>>): seq<P> {
    if rows == [] then [] else [rows[0].delta] + Deltas(rows[1..])
  }

  function Debits<P>(rows: seq<Row<P>>): seq<int> {
    if rows == [] then []
    else (if rows[0].value < 0 then [rows[0].accountId] else []) + Debits(rows[1..])
  }

  predicate RowOpens<P(==)>(w: World<P>, row: Row<P>)
    requires w.g.order > 0
  {
    && row.delta == Pedersen(w.g, row.value, row.r)
    && row.after == w.g.add(row.before, row.delta)
    && row.after == Pedersen(w.g, row.balance, row.randomness)
  }

  predicate Current<P(==)>(s: State<P>, b: Batch<P>) {
    && b.epoch == s.epoch
    && forall i :: 0 <= i < |b.rows| ==>
         && Registered(s.accounts, b.rows[i].accountId)
         && b.rows[i].before == s.accounts[b.rows[i].accountId - 1].commitment
  }

  /** `validateInstitutionalPayment` */
  predicate Validates<P(==)>(w: World<P>, s: State<P>, b: Batch<P>)
    requires w.g.order > 0
  {
    && Allowed(s, b.accountIds)
    && Current(s, b)
    && SumValues(b.rows) == 0 && (forall i :: 0 <= i < |b.rows| ==> b.rows[i].balance >= 0)
    && Debits(b.rows) == [b.payerId]
    && (forall i :: 0 <= i < |b.rows| ==> RowOpens(w, b.rows[i]))
    && SumOf(w.g, Deltas(b.rows)) == w.g.zero
  }

  // ---------- the engine's steps ----------

  /** `settleInstitutionalPayment`'s row loop. */
  function ApplyRows<P>(accounts: seq<Account<P>>, rows: seq<Row<P>>): (r: seq<Account<P>>)
    requires forall i {:trigger rows[i]} :: 0 <= i < |rows| ==> Registered(accounts, rows[i].accountId)
    ensures |r| == |accounts|
    decreases |rows|
  {
    if rows == [] then accounts
    else
      var row := rows[0];
      var rest := rows[1..];
      assert Registered(accounts, row.accountId);
      var next := accounts[row.accountId - 1 := Account(row.balance, row.randomness, row.after)];
      assert |next| == |accounts|;
      assert forall i {:trigger rest[i]} :: 0 <= i < |rest| ==> rest[i] == rows[i + 1];
      assert forall i {:trigger rest[i]} :: 0 <= i < |rest| ==> Registered(accounts, rest[i].accountId);
      ApplyRows(next, rest)
  }

  predicate NullifierUsed<P>(s: State<P>, nullifier: Term) {
    exists i :: 0 <= i < |s.settled| && s.settled[i].nullifier == nullifier
  }

  /** Everything `settle` checks about the draft it finds in `s.draft`. */
  predicate CanSettle<P(==)>(w: World<P>, s: State<P>)
    requires w.g.order > 0
  {
    && HasDraft(s)
    && var d := s.drafts[s.current.value];
       Validates(w, s, d.batch) && d.proof == Some(BindingOf(d.batch)) && !NullifierUsed(s, d.batch.nullifier)
  }

  function Settle<P(==)>(w: World<P>, s: State<P>): State<P>
    requires w.g.order > 0 && CanSettle(w, s)
  {
    var d := s.drafts[s.current.value];
    s.(accounts := ApplyRows(s.accounts, d.batch.rows),
       drafts := SetDraft(s, s.current.value, Confirmed, d.verification, d.proof).drafts,
       epoch := s.epoch + 1,
       settled := s.settled + [d.batch])
  }

  datatype Action =
    | EstablishChannels
    | Fund(owner: bool, recipientId: int, amount: int)
    | Calculate(input: PaymentInput)
    | EditPayment
    | Prove
    | StartPost
    | ResumePost(post: nat)
    | SetPaused(owner: bool, paused: bool)
    | SetFrozen(authorized: bool, accountId: int, frozen: bool)

  function CalculateStep<P>(w: World<P>, s: State<P>, input: PaymentInput): State<P>
    requires w.g.order > 0
  {
    match Build(w, s, input)
    case Err(_) => s
    case Ok(b) => s.(drafts := s.drafts + [Draft(b, Calculated, 0, None)], current := Some(|s.drafts|))
  }

  /** Rebuilding the batch from the draft's own request gives the same binding. */
  predicate Rebuilds<P(==)>(w: World<P>, s: State<P>, b: Batch<P>)
    requires w.g.order > 0
  {
    var expected := Build(w, s, InputOf(b));
    expected.Ok? && BindingOf(expected.value) == BindingOf(b)
  }

  predicate HasDraft<P>(s: State<P>) {
    s.current.Some? && s.current.value < |s.drafts|
  }

  function SetDraft<P>(s: State<P>, i: nat, status: Status, verification: nat, proof: Option<Binding<P>>): State<P>
    requires i < |s.drafts|
  {
    s.(drafts := s.drafts[i := Draft(s.drafts[i].batch, status, verification, proof)])
  }

  predicate CanProve<P(==)>(w: World<P>, s: State<P>, b: Batch<P>)
    requires w.g.order > 0
  {
    Validates(w, s, b) && Rebuilds(w, s, b)
  }

  function ProveStep<P(==)>(w: World<P>, s: State<P>): State<P>
    requires w.g.order > 0
  {
    if !HasDraft(s) then s
    else
      var d := s.drafts[s.current.value];
      if !CanProve(w, s, d.batch) then s
      else SetDraft(s, s.current.value, Proved, d.verification, Some(BindingOf(d.batch)))
  }

  /** `post` up to its first yield. */
  function StartPostStep<P(==)>(w: World<P>, s: State<P>): State<P>
    requires w.g.order > 0
  {
    if !HasDraft(s) then s
    else
      var d := s.drafts[s.current.value];
      if d.proof != Some(BindingOf(d.batch)) || !CanProve(w, s, d.batch) then s
      else SetDraft(s, s.current.value, Submitted, 0, d.proof).(posts := s.posts + [Post(s.current.value, 0, false)])
  }

  /** `post` between two yields: six verification ticks, then settlement of whatever `s.draft` is by then.
      A failed settlement resets the draft object that this post captured. */
  function ResumePostStep<P(==)>(w: World<P>, s: State<P>, n: nat): State<P>
    requires w.g.order > 0
  {
    if n >= |s.posts| || s.posts[n].done || s.posts[n].draft >= |s.drafts| then s
    else
      var post := s.posts[n];
      var d := s.drafts[post.draft];
      if post.stage < 6 then
        var status := if post.stage == 0 then Verifying else d.status;
        SetDraft(s, post.draft, status, post.stage + 1, d.proof).(posts := s.posts[n := post.(stage := post.stage + 1)])
      else
        var s' := s.(posts := s.posts[n := post.(done := true)]);
        if CanSettle(w, s') then Settle(w, s')
        else SetDraft(s', post.draft, Proved, 0, d.proof)
  }

  /** One atomic segment of the engine between two yields. */
  function Next<P(==)>(w: World<P>, s: State<P>, a: Action): State<P>
    requires w.g.order > 0
  {
    match a
    case EstablishChannels => s.(channels := true)
    case Fund(owner, recipientId, amount) => Mint(w, s, owner, recipientId, amount)
    case Calculate(input) => CalculateStep(w, s, input)
    case EditPayment => s.(current := None)
    case Prove => ProveStep(w, s)
    case StartPost => StartPostStep(w, s)
    case ResumePost(n) => ResumePostStep(w, s, n)
    case SetPaused(owner, paused) => if owner then s.(paused := paused) else s
    case SetFrozen(authorized, id, frozen) =>
      if !authorized || !Registered(s.accounts, id) then s
      else s.(frozen := if frozen then s.frozen + {id} else s.frozen - {id})
  }

  /** Any interleaving of actions and post resumptions. */
  function Run<P(==)>(w: World<P>, s: State<P>, actions: seq<Action>): State<P>
    requires w.g.order > 0
    decreases |actions|
  {
    if actions == [] then s
    else Next(w, Run(w, s, actions[..|actions| - 1]), actions[|actions| - 1])
  }
}
