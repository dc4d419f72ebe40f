/** Which secrets the randomness, the tags and the nullifier of a payment depend on. Hashes are free constructors, so
    two of them agree exactly when their inputs do. */
module InstitutionalSecrets {
  import opened Hash
  import opened Numbers
  import opened Group
  import opened Sorting
  import opened Institutional

  /** Two accounts derive one secret, whichever of them derives it, and no other pair derives it from the same hash. */
  lemma PairTermBinds(a: int, b: int, c: int, d: int)
    ensures PairTerm(a, b) == PairTerm(b, a)
    ensures PairTerm(a, b) == PairTerm(c, d) <==> (a == c && b == d) || (a == d && b == c)
  {
  }

  /** The shared secret of two accounts and their fingerprint, the same from both sides; an account has fingerprint 0
      with itself. */
  lemma SharedSecret<P>(w: World<P>, a: int, b: int)
    requires w.g.order > 0
    ensures PairSecret(w, a, b) == PairSecret(w, b, a)
    ensures a <= b ==> PairSecret(w, a, b) == w.valueOf(Hash3(Num(a), Num(b), Num(768))) % w.g.order
    ensures Fingerprint(w, a, b) == Fingerprint(w, b, a) && Fingerprint(w, a, a) == 0
    ensures a != b ==> Fingerprint(w, a, b) == w.valueOf(Hash1(Num(PairSecret(w, a, b)))) % w.g.order
  {
    PairTermBinds(a, b, b, a);
  }

  /** A slot's hash determines its purpose, the secret, the nullifier, the payer and the member. */
  lemma SlotTermBinds<P>(purpose: int, secret: int, c: Context<P>, id: int, purpose': int, secret': int, c': Context<P>,
                         id': int)
    ensures SlotTerm(purpose, secret, SlotNonce(c, id)) == SlotTerm(purpose', secret', SlotNonce(c', id')) <==>
            purpose == purpose' && secret == secret' && c.nullifier == c'.nullifier && c.payerId == c'.payerId
            && id == id'
  {
  }

  /** A nullifier determines the payer's secret and the epoch; that secret's hash, the opening's randomness and the
      spend key. No nullifier is that hash. */
  lemma NullifierBinds(secret: int, epoch: int, secret': int, epoch': int, r: int, key: int, r': int, key': int)
    ensures NullifierOf(secret, epoch) == NullifierOf(secret', epoch') <==> secret == secret' && epoch == epoch'
    ensures SenderTerm(r, key) == SenderTerm(r', key') <==> r == r' && key == key'
    ensures NullifierOf(secret, epoch) != SenderTerm(r, key)
  {
  }

  /** What a member other than the payer needs to open its own row: the secret it shares with the payer, taken from
      its own side, and what the batch publishes. */
  function SharedScalar<P>(w: World<P>, b: Batch<P>, member: int, purpose: int): (n: int)
    requires w.g.order > 0
  {
    var nonce := Hash2(b.nullifier, Hash2(Num(b.payerId), Num(member)));
    w.valueOf(Hash3(Hash1(Num(purpose)), Num(PairSecret(w, member, b.payerId)), nonce)) % w.g.order
  }

  /** Every recipient and decoy recomputes its randomness and its tag from its shared secret, so it can open its row;
      the payer's tag and the nullifier come from the payer's own secret. */
  lemma MembersOpenTheirRows<P(!new)>(w: World<P>, s: State<P>, input: PaymentInput, i: nat)
    requires w.g.order > 0 && Build(w, s, input).Ok? && i < |Build(w, s, input).value.rows|
    ensures var b := Build(w, s, input).value;
            var row := b.rows[i];
            && 1 <= input.payerId <= |s.accounts|
            && var secret := w.valueOf(Hash2(Num(s.accounts[input.payerId - 1].randomness),
                                             Num(w.secretKey(input.payerId)))) % w.g.order;
               && b.nullifier == Hash2(Num(secret), Hash1(Num(s.epoch)))
               && (row.accountId != input.payerId ==>
                     row.r == (-SharedScalar(w, b, row.accountId, 21)) % w.g.order
                     && row.tag == SharedScalar(w, b, row.accountId, 12)
                     && row.delta == Pedersen(w.g, row.value, -SharedScalar(w, b, row.accountId, 21)))
               && (row.accountId == input.payerId ==>
                     row.tag == w.valueOf(Hash3(Hash1(Num(12)), Num(secret), row.nonce)) % w.g.order)
               && row.nonce == Hash2(b.nullifier, Hash2(Num(input.payerId), Num(row.accountId)))
  {
    hide Signals, Sort, RowFor, GoodRecipients, GoodAmounts, Pedersen, OthersR, SharedScalar;
    var ids, b := Sort(input.accountIds), Build(w, s, input).value;
    var c := ContextOf(w, s.accounts, s.epoch, input.payerId, ids, input.recipients);
    assert b.rows[i] == RowFor(w, c, ids[i]);
    MemberOpensRow(w, c, b, ids[i]);
  }

  lemma MemberOpensRow<P(!new)>(w: World<P>, c: Context<P>, b: Batch<P>, id: int)
    requires w.g.order > 0 && Registered(c.accounts, id) && b.nullifier == c.nullifier && b.payerId == c.payerId
    ensures var row := RowFor(w, c, id);
            && row.accountId == id && row.nonce == Hash2(c.nullifier, Hash2(Num(c.payerId), Num(id)))
            && (id != c.payerId ==>
                  row.r == (-SharedScalar(w, b, id, 21)) % w.g.order && row.tag == SharedScalar(w, b, id, 12)
                  && row.delta == Pedersen(w.g, row.value, -SharedScalar(w, b, id, 21)))
            && (id == c.payerId ==>
                  row.tag == w.valueOf(Hash3(Hash1(Num(12)), Num(c.senderSecret), row.nonce)) % w.g.order)
  {
    hide Pedersen;
    PairTermBinds(c.payerId, id, id, c.payerId);
    if id != c.payerId {
      var row, x := RowFor(w, c, id), SharedScalar(w, b, id, 21);
      assert SlotR(w, c, id) == x;
      ResidueOfResidue(-x, w.g.order);
      PedersenModulo(w.g, row.value, (-x) % w.g.order, row.value, -x);
    }
  }

  // ---------- the public signals ----------

  /** The place of row i, column j in a matrix written row by row. */
  function Place(i: nat, j: nat, n: nat): nat {
    if i == 0 then j else n + Place(i - 1, j, n)
  }

  lemma {:induction false} PlaceIs(i: nat, j: nat, n: nat)
    ensures Place(i, j, n) == i * n + j
  {
    if i > 0 {
      PlaceIs(i - 1, j, n);
      OneRowLess(i, n);
    }
  }

  lemma {:induction false} PrintsAt<P>(w: World<P>, rows: seq<int>, ids: seq<int>, i: nat, j: nat)
    requires w.g.order > 0 && i < |rows| && j < |ids|
    ensures var k := Place(i, j, |ids|);
            k < |Prints(w, rows, ids)| && Prints(w, rows, ids)[k] == Scalar(Fingerprint(w, rows[i], ids[j]))
  {
    hide Fingerprint;
    if i > 0 {
      PrintsAt(w, rows[1..], ids, i - 1, j);
    }
  }

  lemma OneRowLess(i: nat, n: nat)
    requires i > 0
    ensures i * n == n + (i - 1) * n
  {
  }

  lemma {:induction false} PrintsSize<P>(w: World<P>, rows: seq<int>, ids: seq<int>)
    requires w.g.order > 0
    ensures |Prints(w, rows, ids)| == |rows| * |ids|
  {
    if rows != [] {
      PrintsSize(w, rows[1..], ids);
      OneRowLess(|rows|, |ids|);
    }
  }

  /** z is eight parts in order, four of them single entries. */
  ghost predicate LaidOut<T>(z: seq<T>, p: seq<T>, a: seq<T>, b: seq<T>, c: seq<T>, e: T, d: seq<T>, t: seq<T>, x: T,
                             y: T, n: nat)
    requires |a| == |b| == |c| == |d| == |t| == n
  {
    var m := |p|;
    && |z| == m + 5 * n + 3 && (forall k :: 0 <= k < m ==> z[k] == p[k])
    && (forall i :: 0 <= i < n ==> z[m + i] == a[i]) && (forall i :: 0 <= i < n ==> z[m + n + i] == b[i])
    && (forall i :: 0 <= i < n ==> z[m + 2 * n + i] == c[i]) && z[m + 3 * n] == e
    && (forall i :: 0 <= i < n ==> z[m + 3 * n + 1 + i] == d[i])
    && (forall i :: 0 <= i < n ==> z[m + 4 * n + 1 + i] == t[i])
    && z[m + 5 * n + 1] == x && z[m + 5 * n + 2] == y
  }

  lemma Layout<T>(p: seq<T>, a: seq<T>, b: seq<T>, c: seq<T>, e: T, d: seq<T>, t: seq<T>, x: T, y: T, n: nat)
    requires |a| == |b| == |c| == |d| == |t| == n
    ensures LaidOut(p + a + b + c + [e] + d + t + [x, y], p, a, b, c, e, d, t, x, y, n)
  {
  }

  /** The order of the public signals: the fingerprint matrix row by row, the spend public keys, the balances before,
      the deltas, the epoch's hash, the ids, the tags, the nullifier and the domain. */
  ghost predicate InOrder<P>(w: World<P>, epoch: int, ids: seq<int>, rows: seq<Row<P>>, nullifier: Term,
                             z: seq<Signal<P>>, i: nat, j: nat)
    requires w.g.order > 0 && |rows| == |ids| && i < |ids| && j < |ids|
  {
    var n, m := |ids|, |ids| * |ids|;
    && |z| == m + 5 * n + 3 && i * n + j < m
    && z[i * n + j] == Scalar(Fingerprint(w, ids[i], ids[j]))
    && z[m + i] == Scalar(w.valueOf(Hash2(Num(w.secretKey(ids[i])), Num(w.secretKey(ids[i])))) % w.g.order)
    && z[m + n + i] == Coordinates(rows[i].before) && z[m + 2 * n + i] == Coordinates(rows[i].delta)
    && z[m + 3 * n] == Digest(Hash1(Num(epoch)))
    && z[m + 3 * n + 1 + i] == Scalar(ids[i]) && z[m + 4 * n + 1 + i] == Scalar(rows[i].tag)
    && z[m + 5 * n + 1] == Digest(nullifier) && z[m + 5 * n + 2] == Scalar(w.domainId)
  }

  lemma SignalsLaidOut<P>(w: World<P>, c: Context<P>, ids: seq<int>, rows: seq<Row<P>>, epoch: int)
    requires w.g.order > 0 && |rows| == |ids|
    ensures LaidOut(Signals(w, c, ids, rows, epoch), Prints(w, ids, ids), PublicKeys(w, ids), BeforeSignals(rows),
                    DeltaSignals(rows), Digest(Hash1(Num(epoch))), IdSignals(ids), TagSignals(rows),
                    Digest(c.nullifier), Scalar(w.domainId), |ids|)
  {
    hide Prints, PublicKeys, BeforeSignals, DeltaSignals, IdSignals, TagSignals, LaidOut;
    Layout(Prints(w, ids, ids), PublicKeys(w, ids), BeforeSignals(rows), DeltaSignals(rows),
           Digest(Hash1(Num(epoch))), IdSignals(ids), TagSignals(rows), Digest(c.nullifier), Scalar(w.domainId), |ids|);
  }

  lemma SignalsInOrder<P>(w: World<P>, c: Context<P>, ids: seq<int>, rows: seq<Row<P>>, epoch: int, i: nat, j: nat)
    requires w.g.order > 0 && |rows| == |ids| && i < |ids| && j < |ids|
    ensures InOrder(w, epoch, ids, rows, c.nullifier, Signals(w, c, ids, rows, epoch), i, j)
  {
    hide Fingerprint, Prints, Signals, PublicKeys, BeforeSignals, DeltaSignals, IdSignals, TagSignals;
    PrintsSize(w, ids, ids);
    PrintsAt(w, ids, ids, i, j);
    PlaceIs(i, j, |ids|);
    SignalsLaidOut(w, c, ids, rows, epoch);
  }

  /** Every constructed batch publishes its signals in that order. */
  lemma BatchPublishes<P(!new)>(w: World<P>, s: State<P>, input: PaymentInput, i: nat, j: nat)
    requires w.g.order > 0 && Build(w, s, input).Ok? && i < input.k && j < input.k
    ensures var b := Build(w, s, input).value;
            && |b.rows| == |b.accountIds| == input.k
            && InOrder(w, s.epoch, b.accountIds, b.rows, b.nullifier, b.publicSignals, i, j)
  {
    hide Signals, Sort, RowFor, InOrder, ContextOf;
    var ids, b := Sort(input.accountIds), Build(w, s, input).value;
    var c := ContextOf(w, s.accounts, s.epoch, input.payerId, ids, input.recipients);
    SignalsInOrder(w, c, ids, b.rows, s.epoch, i, j);
  }
}
