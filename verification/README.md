# Verified models of the Enygma ledgers

A Dafny 4.11 project that models the ledgers of the Enygma repository and proves what they promise. Run
`dafny verify dfyconfig.toml` in this directory.

The repository walks through five small ledgers, and the project follows them:

- **Curve and commitments** (`ModularInverse`, `EdwardsIdentity`, `Fermat`, `Curve`, `CurveCompleteness`, `Group`,
  `ResiduePairs`, `CurveGroup`). The extended-Euclid inverse, the Baby Jubjub addition law in its browser and Go
  forms, double-and-add, and Pedersen commitments `v·G + r·H`. The addition formulas are stated over an arbitrary
  modulus; the programs run them at `FIELD`. The ledgers use the commitment group through an abstract record of a
  commutative group with two generators of one order. `ResiduePairs` shows that those laws are consistent, and
  `CurveGroup` relates them to the concrete curve.
- **Institutional ledger** (`Institutional`, `InstitutionalLedger`, `InstitutionalPayment`, `InstitutionalRequests`,
  `InstitutionalSecrets`, `InstitutionalRuns`, `InstitutionalLiveness`, `InstitutionalGuards`, `InstitutionalPosts`,
  `InstitutionalEngine`). Ten accounts of commitments; batches are calculated, proved, posted and settled. A post
  yields seven times between its checks and its commit, so a run is any sequence of actions and resumptions. The epoch
  counter is what makes it safe.
- **Retail note ledger and tree** (`Hash`, `Merkle`, `Retail`, `RetailSafety`, `RetailRuns`, `RetailOutcomes`,
  `RetailFlows`, `RetailEngine`). A zero-padded sparse Merkle tree, the circuit's path fold, and a note ledger whose
  operations yield many times while a background timer fires. Running operations are kept with their local variables;
  only `activity` excludes them.
- **DvP, auctions and asset trees** (`Amounts`, `Dvp`, `DvpSafety`, `DvpOutcomes`, `DvpEngine`, `Auction`,
  `AuctionSafety`, `AuctionRuns`, `AuctionOutcomes`, `AuctionUnguarded`, `AuctionCash`, `AuctionEngine`, `AssetTrees`,
  `AssetHalves`, `TagCandidates`). Delivery versus payment between two parties, sealed-bid settlement, commitment
  trees rebuilt from one append-only log, and the candidate sets of private tags.
- **Go demos** (`RetailSession`, `RetailSessionRuns`, `RetailSessionLosses`, `RetailSessionEngine`, `PaymentsMirror`).
  The retail session from registration and seeding through channels, payments and scans, split at its mutex sections,
  with every external step free to fail; and the plaintext mirror that the payments demo keeps of the chain's
  commitments.

Where the source updates an object in place, the project has a class with the same fields. Unless the table says more, a
method's postcondition equates the new state with `Next` of the old one, and the modules beside it prove their theorems
about every sequence of `Next` steps; the table lists the methods with loops or several updates, not every such method.
Hashes are free constructors: two hashes are equal only if their inputs are.

Results that a reader of the code may not expect:

- The consumed-nullifier check at institutional settlement never decides anything: the epoch alone keeps settled
  nullifiers distinct (`InstitutionalRuns.NullifierCheckRedundant`).
- A post settles whatever draft is current when it resumes, not the one it was started for. It settles its own draft
  exactly when that one is still current (`InstitutionalPosts.SettlesCaptured`); a draft that was never posted can settle
  (`OtherDraftSettles`), and `SettlesUnpostedIff` says exactly which drafts can.
- A confirmed draft can be shown as "proved" or "verifying" again, by another post of it that is still running
  (`InstitutionalPosts.ConfirmedThenReset`). It keeps its status in every continuation exactly when all its posts have
  finished (`StaysConfirmedIff`). The payment itself is applied once.
- The auction engine by itself does not keep the announced bid maximal: bids can be collected after the announcement
  (`AuctionSafety.EngineAloneFails`), and relisting the certificate reopens the bidding
  (`AuctionUnguarded.RelistingFails`). `StepKeepsMaximal` lists the steps that break it, and `MaximalIff` and
  `SettlementExact` give the condition over whole runs. A second bid under the winner's id loses value
  (`SettlementExact`), and a visitor who loses with two bids is credited one of them (`AuctionCash.CashExactIff`,
  `CashFails`). With the walkthrough's button guards none of this happens (`AuctionRuns`).
- The subset loop for tag candidates does not end with 1, 2 or 4 parties (`TagCandidates.TerminatesIff`).
- The Go addition returns an operand unreduced from its neutral-element fast paths (`Curve.GoSumAgrees`).
- A Go payment that is mined and then fails before it is booked leaves a note that the session believes spendable
  for ever, and that no payment can spend (`RetailSessionLosses.SomeLoss`, `LostForever`, `LostNeverPays`). Books and
  chain agree exactly when no such event has happened (`AgreesIff`).
- A Go registration that fails after its first transaction was mined can never be completed
  (`RetailSessionRuns.RegistrationFails`, `RegistrationRecoversIff`).
- The Go payments handler accepts negative receiver amounts; the mirror stays exact only as far as the curve library
  multiplies by negative scalars as the group does, or as far as its errors cancel out
  (`PaymentsMirror.TransferBalances`, `Demo.Transfer`, `Demo.MirrorsIff`).

## Model

| member | source | states |
|---|---|---|
| `ModularInverse.ComputeInverse` | enygma_demo/js/institutional-crypto.js:12-17 | for every modulus, FIELD included, the extended-Euclid loop ends on every integer, fails exactly when the argument and the modulus share a factor, and otherwise returns the reduced inverse |
| `ModularInverse.InverseUnique` | enygma_demo/js/institutional-crypto.js:12-17 | there is at most one reduced inverse, so the loop computes the only possible value |
| `ModularInverse.InverseOfCongruent` | enygma_demo/js/institutional-crypto.js:12-17 | arguments that agree modulo m have the same inverse, or both have none |
| `ModularInverse.CommonFactorNoInverse` | enygma_demo/js/institutional-crypto.js:15 | a common factor above 1 rules out every inverse, so the thrown error is never spurious |
| `Curve.PointAdd` | enygma_demo/js/institutional-crypto.js:19-23 | the addition returns the reduced twisted Edwards sum, or fails when one of the two denominators has no inverse |
| `Curve.SumExact` | enygma_demo/js/institutional-crypto.js:19-23 | the addition returns exactly when both denominators are invertible, and then the one reduced point that solves the two division equations of the addition law |
| `Curve.SumStaysOnCurve` | enygma_demo/js/institutional-crypto.js:19-23 | closure: whenever the addition of two curve points returns, the result satisfies 168700x²+y²=1+168696x²y² (the curve equation of ERC-2494) |
| `Curve.SumCommutes` | enygma_demo/js/institutional-crypto.js:19-23 | the addition is commutative, failures included |
| `Curve.NeutralElement` | enygma_demo/js/institutional-crypto.js:19-23 | (0,1) is on the curve and neutral on both sides up to reduction, and exactly neutral if and only if the other point is reduced |
| `Curve.GoSumAgrees` | enygma_payments/demo/main.go:181-229 | the Go addition with its fast paths gives the same point as the browser addition if and only if a fast path does not hand back an unreduced operand; all reduced inputs qualify |
| `CurveCompleteness.RootOfA` | enygma_demo/js/institutional-crypto.js:21-22 | 168700 is a square modulo FIELD |
| `EdwardsIdentity.NumeratorsVanish` | enygma_demo/js/institutional-crypto.js:21-22 | the polynomial identity behind closure: the two numerators satisfy the curve equation cleared of denominators, modulo m |
| `EdwardsIdentity.Divide` | enygma_demo/js/institutional-crypto.js:22 | dividing that identity by the two denominators gives the curve equation for the quotients |
| `Group.PointMultiply` | enygma_demo/js/institutional-crypto.js:25-29 | double-and-add returns the (amount mod order)-fold sum for every integer amount, negative ones included |
| `Group.ScaleAdd` | enygma_demo/js/institutional-crypto.js:25-29 | scalar multiples add over all integers: (a+b)P = aP+bP for a point of the group order |
| `Group.TimesDouble` | enygma_demo/js/institutional-crypto.js:27 | a 2n-fold sum is the n-fold sum of the doubled point, the step of double-and-add |
| `Group.ComputePedersen` | enygma_demo/js/institutional-crypto.js:31 | the commitment method returns v·G + r·H |
| `Group.PedersenAdd` | enygma_demo/js/institutional-crypto.js:31 | commitments are additively homomorphic over all integers, including the payer's negative value |
| `Group.PedersenModulo` | enygma_demo/js/institutional-crypto.js:8-9 | values and randomness matter only modulo the group order |
| `ResiduePairs.PairGroupLawful` | enygma_demo/js/institutional-crypto.js:5-7 | the assumed group laws are consistent: pairs of residues modulo the order satisfy all of them |
| `ResiduePairs.PairCommitmentBinds` | enygma_demo/js/institutional-crypto.js:31 | in that instance a commitment is its own opening modulo the order |
| `CurveGroup.BabyJubjubLawful` | enygma_demo/js/institutional-crypto.js:19-23 | the concrete curve points satisfy the group laws, given associativity and the order of the two generators |
| `CurveGroup.GeneratorsOnCurve` | enygma_demo/js/institutional-crypto.js:6-7 | both hard-coded generators are reduced points of the curve |
| `InstitutionalRuns.LedgerSafety` | enygma_demo/js/institutional.js:38-47 | over every interleaving of mint, calculate, edit, prove, post with its yields, pause and freeze: each commitment opens to its balance and randomness, balances are between 0 and 2^53-1 and add up to the supply, randomness cancels modulo the order, and the commitments add up to the supply commitment |
| `InstitutionalRuns.SettlementIsExact` | enygma_demo/js/institutional.js:158-167 | whatever ran between the yields, a batch that settles is exactly what construction computes from the accounts it is applied to, the contract is unpaused and no member frozen at that instant, and it moves the payer's and the recipients' balances by the requested amounts and nobody else's |
| `InstitutionalRuns.SettledOnce` | enygma_demo/js/institutional.js:165 | settlement epochs strictly increase, so no batch settles twice, and settled nullifiers are pairwise distinct |
| `InstitutionalRuns.NullifierCheckRedundant` | enygma_demo/js/institutional.js:162 | in every reachable state the consumed-nullifier check rejects nothing that the other settlement checks accept |
| `InstitutionalRuns.SettleOutdates` | enygma_demo/js/institutional.js:165 | a settlement moves the epoch past the draft it applied, so that draft cannot settle again |
| `InstitutionalRuns.RunInv` | enygma_demo/js/demo-engine.js:664-744 | the ledger invariant, the epoch stamp of every draft and the settlement history hold in every reachable state |
| `InstitutionalRuns.NextInv` | enygma_demo/js/demo-engine.js:670-744 | every single step, from any state that satisfies it, keeps that invariant |
| `InstitutionalRuns.SettleInv` | enygma_demo/js/institutional.js:158-167 | a settlement keeps the invariant, and the batch it applies is exact for the accounts before it |
| `InstitutionalRuns.BuildIsExact` | enygma_demo/js/institutional.js:95-136 | a constructed batch carries its request (payer, recipients, members, one row per member with the requested amount) whatever order the ids arrive in, is the function of accounts, epoch and request that the invariant speaks about, and its nullifier carries the epoch |
| `InstitutionalRuns.ExactRebuilds` | enygma_demo/js/demo-engine.js:692-693 | an exact batch whose members are allowed is rebuilt identically, so the binding comparison accepts it |
| `InstitutionalRuns.EpochRetiresDrafts` | enygma_demo/js/institutional.js:84 | after the epoch is bumped every existing draft is of an earlier epoch, and the drafts' invariant holds |
| `InstitutionalLiveness.PaymentExists` | enygma_demo/js/institutional.js:95-136 | such requests exist: after establishing channels and one mint, construction accepts a payment from account 1 to account 2 |
| `InstitutionalLiveness.StillProvable` | enygma_demo/js/demo-engine.js:689-693 | validation and the rebuilt binding accept a constructed batch as long as accounts, epoch, pause and freezes are as they were |
| `InstitutionalPayment.BuildValidates` | enygma_demo/js/institutional.js:138-152 | completeness: in every sound state any draft that construction returns passes every check of validation, for any allowed recipient split |
| `InstitutionalPayment.BatchConserves` | enygma_demo/js/institutional.js:120-127 | values of a constructed batch sum to 0, its randomness to 0 modulo the order, its deltas to the neutral point, every row opens, and exactly the payer is debited |
| `InstitutionalPayment.BatchBalances` | enygma_demo/js/institutional.js:121-127 | applying a constructed batch moves each member by exactly the requested amount and leaves every other account alone |
| `InstitutionalPayment.CreditsAddUp` | enygma_demo/js/institutional.js:104-106 | distinct recipients inside the set receive the total exactly once each |
| `InstitutionalPayment.RandomnessCancels` | enygma_demo/js/institutional.js:120-124 | the payer's randomness delta cancels the others' modulo the order |
| `InstitutionalPayment.DeltasSum` | enygma_demo/js/institutional.js:149 | the sum of the row deltas is the commitment to the sums of values and randomness |
| `InstitutionalPayment.OnlyPayerDebited` | enygma_demo/js/institutional.js:144-145 | the debited rows of a constructed batch are exactly the payer's |
| `InstitutionalPayment.RowExtends` | enygma_demo/js/institutional.js:125-126 | every row's new commitment opens to its new balance and randomness |
| `InstitutionalPayment.OthersRIgnoresSenderR` | enygma_demo/js/institutional.js:115-120 | the slot hashes do not depend on the payer's own randomness delta, so it is well defined |
| `InstitutionalPayment.ConservingKeepsTotals` | enygma_demo/js/institutional.js:163 | applying a conserving batch keeps every opening, the total balance and the cancelled randomness |
| `InstitutionalLedger.CommitmentsSum` | enygma_demo/js/institutional.js:45 | the sum of the account commitments is the commitment to the totals |
| `InstitutionalLedger.ApplyRowsSound` | enygma_demo/js/institutional.js:163 | the row loop keeps every opening and shifts the totals by the totals of the rows |
| `InstitutionalLedger.ApplyRowsAt` | enygma_demo/js/institutional.js:163 | after the row loop a member has exactly its row, and everyone else the old entry |
| `InstitutionalEngine.Ledger.Fund` | enygma_demo/js/institutional.js:66-88 | accepted exactly for the owner, unpaused, a registered recipient, 1 to 10^9 and safe sums; then recipient and supply grow by the amount, the commitments by amount·G, the epoch advances and the draft is dropped; otherwise nothing changes |
| `InstitutionalRequests.MintExact` | enygma_demo/js/institutional.js:66-88 | the same of the mint step from every state: no other account changes, nor the recipient's randomness |
| `InstitutionalEngine.Ledger.Calculate` | enygma_demo/js/demo-engine.js:684-687 | accepted exactly for the requests that meet the conditions of construction; then the current draft is a batch that carries the request; otherwise nothing changes |
| `InstitutionalRequests.BuildAccepts` | enygma_demo/js/institutional.js:95-111 | construction accepts a request, ids in any order, if and only if: channels, unpaused, k of 2 or 6 distinct registered unfrozen members with the payer among them, 1 to k-1 distinct recipients among the others, positive safe amounts, a total within the payer's balance |
| `InstitutionalRequests.BuildCarries` | enygma_demo/js/institutional.js:95-127 | for every state and accepted request the batch has the request's payer, k, recipients and total, the members sorted, and per member a row with minus the total for the payer, its own amount for each recipient, 0 for the rest, extended from that account's balance and commitment |
| `InstitutionalRequests.PauseExact` | enygma_demo/js/demo-engine.js:727-734 | only the owner pauses and resumes, and only the pause flag changes |
| `InstitutionalRequests.FreezeExact` | enygma_demo/js/demo-engine.js:735-744 | only owner and auditor freeze and unfreeze, only registered accounts, and only that account's flag changes |
| `InstitutionalRequests.PausedStops` | enygma_demo/js/institutional.js:90-93 | while paused no step moves value or brings about a draft, proof, post or settlement |
| `InstitutionalRequests.NoDraftStops` | enygma_demo/js/institutional.js:138-140 | without a current draft nothing is proved, posted or settled until a new one is calculated |
| `InstitutionalRequests.EditStops` | enygma_demo/js/demo-engine.js:688 | editing drops the draft, nothing else, and so stops proving, posting and settling |
| `InstitutionalGuards.ProvesIff` | enygma_demo/js/demo-engine.js:689-698 | in every reached state the current draft can be proved if and only if it was computed for the current epoch and the contract is unpaused and no member frozen; no other check ever decides |
| `InstitutionalGuards.PostsIff` | enygma_demo/js/demo-engine.js:700-708 | a post starts if and only if the current draft is in that condition and has a proof |
| `InstitutionalGuards.SettlesIff` | enygma_demo/js/institutional.js:154-167 | the last resumption of a post settles if and only if the then current draft is in that condition and has a proof; otherwise the post's own draft is put back to proved and no account changes |
| `InstitutionalGuards.ValidationProtects` | enygma_demo/js/institutional.js:138-151 | any batch that validates, constructed or not, keeps the sum of all commitments when applied to distinct accounts, and every new commitment opens to the nonnegative balance its row claims |
| `InstitutionalGuards.ApplyShifts` | enygma_demo/js/institutional.js:163 | applying rows for distinct accounts shifts the sum of the commitments by the sum of the deltas |
| `InstitutionalSecrets.PairTermBinds` | enygma_demo/js/institutional.js:4 | a shared secret's hash is the same from both sides and determines the pair |
| `InstitutionalSecrets.SharedSecret` | enygma_demo/js/institutional.js:4-5 | secret and fingerprint of a pair are symmetric; an account has fingerprint 0 with itself |
| `InstitutionalSecrets.SlotTermBinds` | enygma_demo/js/institutional.js:113-118 | a slot's hash determines purpose, secret, nullifier, payer and member, so randomness and tag hashes never coincide |
| `InstitutionalSecrets.NullifierBinds` | enygma_demo/js/institutional.js:111-114 | a nullifier's hash determines the payer's secret and the epoch, and the secret's hash the randomness and the spend key |
| `InstitutionalSecrets.MembersOpenTheirRows` | enygma_demo/js/institutional.js:111-127 | in every constructed batch each member but the payer recomputes its randomness and tag from the secret it shares with the payer and the published data, and so opens its row; nullifier and payer's tag come from the payer's own secret |
| `InstitutionalSecrets.BatchPublishes` | enygma_demo/js/institutional.js:129-135 | the public signals of every constructed batch, in order: fingerprint matrix, spend keys, balances before, deltas, epoch hash, ids, tags, nullifier, domain |
| `InstitutionalEngine.Ledger.Check` | enygma_demo/js/demo-engine.js:691-693 | accepts exactly the drafts that validate and whose rebuilt binding agrees |
| `InstitutionalEngine.Ledger.Prove` | enygma_demo/js/demo-engine.js:689-698 | the new state is the prove step, and on success the current draft carries a proof of its own binding |
| `InstitutionalEngine.Ledger.StartPost` | enygma_demo/js/demo-engine.js:699-706 | the new state is the post step up to its first yield; a post starts exactly when it succeeds |
| `InstitutionalEngine.Ledger.ApplyDraft` | enygma_demo/js/institutional.js:163 | the loop over rows computes the fold of the rows over the accounts |
| `InstitutionalEngine.Ledger.ResumePost` | enygma_demo/js/demo-engine.js:708-724 | one resumption: a verification tick, a settlement of whatever the current draft is, or the failure branch on the captured draft |
| `Sorting.SortKeeps` | enygma_demo/js/institutional.js:97 | sorting the selected ids keeps their number, their members and their distinctness |
| `Sorting.SortKeepsSorted` | enygma_demo/js/demo-engine.js:692 | sorting ids that are already sorted changes nothing, so a rebuilt request is the same request |
| `Merkle.RetailTree` | enygma_demo/js/retail.js:16-26 | the level loop computes all stored levels and the root |
| `Merkle.NextLevel` | enygma_demo/js/retail.js:20-22 | the inner loop pairs stored nodes and pads with the level's zero |
| `Merkle.ZeroLevels` | enygma_demo/js/retail.js:13-14 | the zero table holds the roots of empty subtrees |
| `Merkle.SparseRefinesFull` | enygma_demo/js/retail.js:16-26 | for every depth and leaf list, the sparse root is the root of the perfect tree padded with the zero leaf |
| `Merkle.SparseIsFull` | enygma_demo/js/retail.js:21 | every stored or implied node of every level equals the node of the padded full tree |
| `Merkle.MerkleProof` | enygma_dvp/gnark_circuits/primitives/MerkleProof.go:9-30 | the circuit fold over index bits has a witness exactly when the index fits the path, and then returns the recursive fold |
| `Merkle.ToBinary` | enygma_dvp/gnark_circuits/primitives/MerkleProof.go:12 | the bits are the index shifted right, defined exactly when the index is below 2^n |
| `Merkle.PathComplete` | enygma_demo/js/retail.js:153 | for every depth and index the extracted siblings fold back to the root, sides chosen by the index bits |
| `Merkle.PathBinds` | enygma_dvp/gnark_circuits/primitives/MerkleProof.go:14-28 | under an injective hash a path folds to the root at an index if and only if it starts from that padded leaf and is the extracted path |
| `Merkle.FoldDetermines` | enygma_dvp/gnark_circuits/primitives/MerkleProof.go:14-28 | at any height, a fold that reaches a node fixes the leaf and every sibling |
| `Merkle.RootBinds` | enygma_demo/js/retail.js:16-26 | two leaf lists with one root agree on every padded leaf |
| `RetailRuns.ConservationAndCapacity` | enygma_demo/js/retail.js:63-65 | at every yield point, timer included: public balance plus unspent notes is what was minted plus 100 per background deposit, nothing is negative, and there are never more than 256 leaves although capacity is checked once before the yields |
| `RetailRuns.Exclusion` | enygma_demo/js/retail.js:87-95 | the activity field is an exclusive lock: it is set exactly while the one running operation is between its yields, and then neither a new action nor the timer changes anything |
| `RetailRuns.NullifiersDistinct` | enygma_demo/js/retail.js:208 | all published nullifiers of a run are pairwise distinct |
| `RetailRuns.SpentIffPublished` | enygma_demo/js/retail.js:159 | the two halves of the double-spend check agree: a note is spent exactly when its nullifier has been published, for every party |
| `RetailRuns.OneSpender` | enygma_demo/js/retail.js:161-163 | every spent note has exactly one spending transaction, which names the note as its input and carries its nullifier |
| `RetailRuns.PaymentNeverAborts` | enygma_demo/js/retail.js:155-163 | a payment that reaches its final check always commits: nothing can spend its input in between |
| `RetailRuns.RecheckPasses` | enygma_demo/js/retail.js:159 | under the invariant the repeated double-spend check of a running payment cannot fail |
| `RetailRuns.PaymentsProveMembership` | enygma_demo/js/retail.js:150-161 | every payment ever published carries a path that the circuit folds from the spent note's commitment to the published root, the root of a prefix of today's leaves |
| `RetailRuns.RunInv` | enygma_demo/js/retail.js:93-190 | the books balance, notes and leaves are aligned, spenders match, and what is left of the running operation can resume, in every reachable state |
| `RetailRuns.NextInv` | enygma_demo/js/retail.js:93-211 | every atomic segment and every timer tick keeps that invariant |
| `RetailRuns.TrafficOk` | enygma_demo/js/retail.js:192-211 | a timer tick keeps the books and the capacity, and does nothing while an operation runs |
| `RetailSafety.AppendAligned` | enygma_demo/js/retail.js:77-83 | the leaf looked up for each new note is the one pushed for it, so note positions and leaf indices agree |
| `RetailSafety.PayBooks` | enygma_demo/js/retail.js:160-163 | appending the outputs and marking the input spent conserves value and keeps spenders and nullifiers in bijection |
| `RetailSafety.DepositBooks` | enygma_demo/js/retail.js:112-113 | appending one fresh note keeps everything but the public balance in order |
| `RetailSafety.NewNotesTotal` | enygma_demo/js/retail.js:77-83 | the notes created for a list of payloads are worth the payloads' total |
| `Retail.SmallestSufficient` | enygma_demo/js/retail.js:144-145 | sort-then-find returns the smallest available note that covers the amount, or none exactly when no note does |
| `RetailEngine.Engine.Append` | enygma_demo/js/retail.js:73-85 | the transaction, its leaves and one note per payload are appended, and nothing else changes |
| `RetailEngine.Engine.PushLeaves` | enygma_demo/js/demo-engine.js:648-657 | one leaf per payload, in order |
| `RetailEngine.Engine.PushNotes` | enygma_demo/js/retail.js:77-83 | one note per payload at its looked-up leaf |
| `RetailEngine.Engine.Commit` | enygma_demo/js/retail.js:160-163 | the outputs are appended and the input is spent by that transaction |
| `RetailEngine.Engine.MintCash` | enygma_demo/js/retail.js:97-102 | the new state is the mint segment; it succeeds exactly when no operation runs and the amounts are in range |
| `RetailEngine.Engine.BeginPaying` | enygma_demo/js/retail.js:140-157 | the new state is the payment segment up to its first yield; a payment that begins holds the amount for the channel's recipient and the rest of its input for the visitor |
| `RetailOutcomes.PaymentBegins` | enygma_demo/js/retail.js:140-150 | from every reached idle state a payment begins if and only if its channel exists, the amount is positive and safe, a note of the visitor covers it (the named one, or the smallest) and two leaves fit; otherwise nothing changes |
| `RetailOutcomes.PaymentPays` | enygma_demo/js/retail.js:140-177 | such a payment, run to its end, spends that note, gives the recipient one note of the amount and the visitor one of the rest, publishes root and nullifier, moves exactly the amount between the two and changes nobody else's holdings |
| `RetailOutcomes.RunKept` | enygma_demo/js/retail.js:119-138 | in every run channels are numbered in order and lead to distinct other parties, and every payment's first output is a note that it created |
| `RetailFlows.MintAdds` | enygma_demo/js/retail.js:97-102 | a mint is accepted if and only if amount and new balance are in range, and moves the public balance alone |
| `RetailFlows.ShieldPays` | enygma_demo/js/retail.js:103-118 | a good shield plan, run to its end, turns its total of public balance into one discovered note of the visitor per amount |
| `RetailFlows.ShieldRejects` | enygma_demo/js/retail.js:50-61 | every other plan changes nothing |
| `RetailFlows.ChannelOpens` | enygma_demo/js/retail.js:119-139 | a request for a channel to another party without one, run to its end, appends it with the next number; any other changes nothing |
| `RetailFlows.ScanDiscovers` | enygma_demo/js/retail.js:178-189 | a scan of an unscanned payment, run to its end, discovers exactly the note that the payment created for its recipient and marks the payment; a second scan changes nothing |
| `RetailFlows.TickExact` | enygma_demo/js/retail.js:192-212 | what a timer tick does in every reached state: nothing, switching off above 253 leaves, a deposit of 100 to the wallet in turn, or its payment of up to 10 from its first available note to the wallet two further |
| `RetailEngine.Engine.ResumePaying` | enygma_demo/js/retail.js:155-176 | each resumed payment segment is the corresponding step, the repeated check included |
| `RetailEngine.Engine.TrafficTick` | enygma_demo/js/retail.js:192-211 | one firing of the timer is the traffic step |
| `AssetTrees.GroupIsSubsequence` | enygma_demo/js/demo-engine.js:217-218 | an asset's leaf list is the order-preserving subsequence of the global log: each leaf follows exactly the earlier leaves of its asset |
| `AssetTrees.OtherRootsUnchanged` | enygma_demo/js/demo-engine.js:220-237 | appending leaves of other assets leaves an asset's root unchanged |
| `AssetTrees.RootBindsCommitments` | enygma_demo/js/demo-engine.js:221-236 | two logs give an asset the same root if and only if they list the same commitments for it in the same order |
| `AssetTrees.ReduceInjective` | enygma_demo/js/demo-engine.js:225-235 | the level-by-level reduction is injective on leaf lists of any lengths |
| `AssetHalves.RootIsBalanced` | enygma_demo/js/demo-engine.js:222-236 | an asset's root is the balanced tree over its leaves in the order of the log, the earlier half on the left at every level, labelled empty nodes where the right half has none |
| `AssetHalves.PairsUp` | enygma_demo/js/demo-engine.js:225-233 | pairing a level up takes exactly one level off that tree |
| `AssetTrees.LeafIndexForever` | enygma_demo/js/demo-engine.js:181-194 | a recorded note's leaf index points to its own leaf and commitment, whatever is appended later |
| `AssetTrees.GroupAppend` | enygma_demo/js/demo-engine.js:207-219 | grouping distributes over appending to the log |
| `AssetTrees.GroupLeaves` | enygma_demo/js/demo-engine.js:206-219 | the grouping loop builds exactly each asset's list |
| `AssetTrees.Protocol.Append` | enygma_demo/js/demo-engine.js:648-659 | after a push the log has grown by the new leaves and every asset in it has its root |
| `AssetTrees.Protocol.Rebuild` | enygma_demo/js/demo-engine.js:204-238 | after a rebuild the stored roots are exactly the roots of the assets in the log |
| `AssetTrees.Protocol.BuildTree` | enygma_demo/js/demo-engine.js:222-236 | the level loop computes the reduction |
| `DvpSafety.Conservation` | enygma_demo/js/demo-engine.js:775-882 | over every run each asset is conserved across public, shielded and received balances, and each shielded counter is the sum of the unspent or locked shielding notes, so the unchecked subtractions at settlement never go negative |
| `DvpSafety.Atomicity` | enygma_demo/js/demo-engine.js:831-860 | no reachable state has the security locked without the cash, and the two input notes are spent together, exactly when the transfer is settled |
| `DvpSafety.SettledAbsorbs` | enygma_demo/js/demo-engine.js:844-858 | settled is absorbing: afterwards only unshielding changes the state |
| `DvpSafety.TimeoutRestores` | enygma_demo/js/demo-engine.js:861-874 | instantiating and timing out gives back exactly the note list before the lock, and the transfer can be instantiated again |
| `DvpSafety.TimeoutExact` | enygma_demo/js/demo-engine.js:861-874 | a timeout applies exactly while the transfer waits, and changes exactly the locked cash note |
| `DvpSafety.SellerLegSettles` | enygma_demo/js/demo-engine.js:831-860 | the seller's leg applies exactly while the transfer waits, and then always settles with both outputs |
| `DvpOutcomes.AppliesIff` | enygma_demo/js/demo-engine.js:751-881 | in every reached state each action applies if and only if the phase allows it; the checks of shielded totals, asset and note status never decide |
| `DvpOutcomes.HoldingsMove` | enygma_demo/js/demo-engine.js:775-815 | minting and shielding move exactly the rounded amount, the latter into one more note |
| `DvpOutcomes.AcceptAgrees` | enygma_demo/js/demo-engine.js:766-774 | in every reached state accepting proposed terms makes them agreed and changes nothing else |
| `DvpOutcomes.TradeSettles` | enygma_demo/js/demo-engine.js:751-860 | from every reached state without terms any note of the seller and any of the buyer can be traded: propose, accept, instantiate and lock spend both and give each party the other's amount |
| `DvpOutcomes.AgreedSettles` | enygma_demo/js/demo-engine.js:816-860 | agreed terms that no transfer waits on settle by instantiating and locking, also after a timeout |
| `DvpOutcomes.WalkthroughTrades` | enygma_demo/js/demo-engine.js:751-860 | for any positive amounts the whole walkthrough ends settled: the buyer holds the shielded quantity, the seller the shielded cash, and the rest stayed public |
| `DvpOutcomes.UnshieldMoves` | enygma_demo/js/demo-engine.js:875-882 | unshielding moves 25 units from private to public exactly after settlement and while 25 are left |
| `DvpSafety.RunInv` | enygma_demo/js/demo-engine.js:751-882 | balances, note sums and the phase of the settlement agree in every reachable state |
| `DvpSafety.NextInv` | enygma_demo/js/demo-engine.js:751-882 | every action keeps that invariant |
| `DvpSafety.LockSecurityInv` | enygma_demo/js/demo-engine.js:831-860 | a seller leg that changes anything settles, and keeps the invariant |
| `DvpSafety.SettlementHeld` | enygma_demo/js/demo-engine.js:848-857 | settlement moves the value of the notes of every owner and origin by exactly the two inputs and the two outputs |
| `DvpEngine.Engine.Instantiate` | enygma_demo/js/demo-engine.js:816-830 | the in-place update is the instantiation step of the run model: a new transfer, the cash note locked, and nothing at all when a guard rejects |
| `DvpEngine.Engine.LockSecurity` | enygma_demo/js/demo-engine.js:831-860 | the in-place update is the seller-leg step of the run model, settlement included |
| `DvpEngine.Engine.Timeout` | enygma_demo/js/demo-engine.js:861-874 | the in-place update is the timeout step of the run model |
| `DvpEngine.Engine.Settle` | enygma_demo/js/demo-engine.js:844-858 | both inputs are spent, both outputs created and the four counters moved, as one step |
| `AuctionRuns.AnnouncedStaysMaximal` | enygma_demo/js/demo-engine.js:1000-1013 | under the button guards the announced bid is a maximum over all bids from its announcement through settlement |
| `AuctionRuns.PaysOut` | enygma_demo/js/demo-engine.js:1032-1052 | the six notes a settlement creates, in order, for any position of the winning bid |
| `AuctionRuns.PrivateCashExact` | enygma_demo/js/demo-engine.js:956 | the private cash counter equals the sum of the visitor's unspent USD notes at every step of a guarded run |
| `AuctionCash.CashExactIff` | enygma_demo/js/demo-engine.js:1046-1052 | in every run of the engine alone the private cash counter never exceeds the sum of the visitor's unspent USD notes, and equals it if and only if the visitor never lost a settlement with two or more bids |
| `AuctionCash.StepGap` | enygma_demo/js/demo-engine.js:883-1058 | from every state with positive active bids and escrowed inputs, hence in every run, no step shrinks the difference between the two, and exactly such a settlement widens it |
| `AuctionCash.SettleGap` | enygma_demo/js/demo-engine.js:1032-1052 | a settlement that the visitor loses opens the difference by exactly the amounts of the visitor's bids after the first |
| `AuctionCash.CashFails` | enygma_demo/js/demo-engine.js:1046-1052 | a concrete run of the engine alone after whose settlement the counter is below what the visitor holds |
| `AuctionRuns.RunInv` | enygma_demo/js/app.js:586-596 | the stage invariant holds in every state the offered buttons can reach |
| `AuctionRuns.NextInv` | enygma_demo/js/demo-engine.js:883-1058 | every offered action keeps the stage invariant |
| `AuctionRuns.SettleCash` | enygma_demo/js/demo-engine.js:1039-1053 | settlement moves the cash counter and the visitor's USD notes by the same amount |
| `AuctionRuns.LosersAre` | enygma_demo/js/demo-engine.js:1032 | the losers are the bid list without the winning bid |
| `AuctionSafety.EngineAloneFails` | enygma_demo/js/demo-engine.js:945-968 | a concrete run of the engine without the button guards that announces less than the highest bid and pays out less than was bid |
| `AuctionSafety.BestIsMaximal` | enygma_demo/js/demo-engine.js:1001-1002 | the reduction returns an active bid that no active bid exceeds |
| `AuctionSafety.FirstClaim` | enygma_demo/js/demo-engine.js:1027 | the bid found by id carries the whole value claimed under that id exactly when it is the only one |
| `AuctionSafety.LosersTotal` | enygma_demo/js/demo-engine.js:1032 | the losers' bids are all bids except those under the winner's id |
| `AuctionSafety.RecoveriesPay` | enygma_demo/js/demo-engine.js:1033-1036 | each loser gets one USD note of exactly its own bid |
| `AuctionEngine.Engine.SubmitBid` | enygma_demo/js/demo-engine.js:945-968 | the in-place update is the bid step of the run model: the note spent, its change returned, one bid appended |
| `AuctionEngine.Engine.CollectBids` | enygma_demo/js/demo-engine.js:969-989 | the loop appends exactly the four other bids |
| `AuctionEngine.Engine.Settle` | enygma_demo/js/demo-engine.js:1024-1058 | the in-place update, loops included, is the settlement step of the run model |
| `AuctionEngine.Engine.FindWinner` | enygma_demo/js/demo-engine.js:1001-1002 | the loop returns the first largest active bid, or none exactly when no bid is active |
| `AuctionEngine.Engine.CollectLosers` | enygma_demo/js/demo-engine.js:1032 | the loop keeps exactly the active bids that are not the winner's |
| `AuctionEngine.Engine.DecideBids` | enygma_demo/js/demo-engine.js:1041-1045 | every bid is marked won or recovered and its input note is spent |
| `AuctionEngine.Engine.PayOut` | enygma_demo/js/demo-engine.js:1027-1053 | notes, bids and the cash counter after settlement |
| `TagCandidates.TerminatesIff` | enygma_demo/js/demo-engine.js:135-142 | the subset loop ends for a recipient if and only if there are three, or at least five, parties |
| `TagCandidates.SubsetCandidates` | enygma_demo/js/demo-engine.js:135-142 | where it ends, the loop returns exactly max(1,⌊√n⌋)+1 distinct sorted in-range indices with the recipient among them: the sorted first offsets |
| `TagCandidates.AfterExact` | enygma_demo/js/demo-engine.js:137-140 | while step-2 residues suffice no offset is wasted: after k offsets the list is the k+1 first residues |
| `TagCandidates.AfterStuck` | enygma_demo/js/demo-engine.js:137-140 | with one, two or four parties the list stops growing at one or two entries |
| `TagCandidates.RiftExact` | enygma_demo/js/retail.js:123-126 | a rift set that passes the caller's guard keeps the recipient, drops exactly the exclusions and leaves at least two candidates; the guard rejects exactly the requests that exclude everybody else |
| `TagCandidates.Clean` | enygma_demo/js/retail.js:124 | the cleaned exclusions are distinct, in range and never the recipient |
| `TagCandidates.Range` | enygma_demo/js/demo-engine.js:143-146 | the kept indices are increasing and are exactly the non-excluded ones and the recipient |
| `PaymentsMirror.NegMod` | enygma_payments/demo/main.go:231-233 | a negated scalar lies between 1 and the order, and is congruent to the negation |
| `CurveCompleteness.SumAlwaysReturns` | enygma_demo/js/institutional-crypto.js:19-23 | completeness of the Edwards law: modulo a prime in which 168700 is a square and 168696 is not, no two curve points make the addition throw |
| `CurveCompleteness.SumReturnsByEuler` | enygma_demo/js/institutional-crypto.js:15 | the same with the condition on 168696 certified by Euler's criterion: one power of it is -1 |
| `Fermat.NotASquare` | enygma_demo/js/institutional-crypto.js:21 | Euler's criterion as used there: a number whose power to half of m - 1 is -1 is no square modulo the prime m |
| `InstitutionalRuns.MintInv` | enygma_demo/js/institutional.js:66-88 | a mint keeps every opening and both totals, and every existing draft is out of date afterwards |
| `InstitutionalRuns.CalculateInv` | enygma_demo/js/demo-engine.js:684-687 | calculating a batch changes no account, and the draft it makes current is exact for the accounts and epoch |
| `InstitutionalRuns.SecondPostResetsStatus` | enygma_demo/js/demo-engine.js:719-724 | one step: with two posts of the current draft at their last resumption, the first confirms it and the second puts its status back to proved, while the payment stays applied once |
| `InstitutionalPosts.ConfirmedThenReset` | enygma_demo/js/demo-engine.js:699-724 | from every reachable state, an accepted request that is posted twice and resumed is first confirmed and then shown as proved again, while the payment is applied once |
| `InstitutionalPosts.ConfirmedSurvives` | enygma_demo/js/demo-engine.js:699-724 | a confirmed draft loses its status in exactly these steps: the first resumption of an unfinished post of it, or the last one when nothing can settle |
| `InstitutionalPosts.StaysConfirmedIff` | enygma_demo/js/demo-engine.js:719-724 | over runs: a confirmed draft stays confirmed in every continuation if and only if every post of it has finished |
| `InstitutionalPosts.SettlesCaptured` | enygma_demo/js/demo-engine.js:716 | a resumption that settles confirms the current draft and no other, so it settles the draft its post captured if and only if that draft is still current |
| `InstitutionalPosts.OtherDraftSettles` | enygma_demo/js/demo-engine.js:699-716 | from every reachable state, with two accepted requests: the post of the first one settles the second one, which was never posted, and the first stays unsettled and shown as verifying |
| `InstitutionalPosts.SettlesUnpostedIff` | enygma_demo/js/institutional.js:158-167 | over runs: an unconfirmed draft can still settle without being posted if and only if it is the current draft, computed for the current epoch, and some post is unfinished |
| `InstitutionalPosts.RunPast` | enygma_demo/js/institutional.js:164-165 | in every reachable state a confirmed draft belongs to an earlier epoch and its batch is among the settled ones |
| `InstitutionalLiveness.PaymentGoesThrough` | enygma_demo/js/demo-engine.js:684-718 | liveness: from every reachable state a request that meets the conditions is confirmed after calculate, prove, post and seven undisturbed resumptions; the settled batch carries the request, the payer's balance falls by the total, each recipient's rises by its own amount and every other balance stays |
| `InstitutionalLiveness.Ticks` | enygma_demo/js/demo-engine.js:709-715 | one undisturbed resumption advances the verification count and touches no other post and no other draft |
| `InstitutionalLiveness.Arrives` | enygma_demo/js/demo-engine.js:716 | the seventh resumption settles the current draft, bumps the epoch, confirms it and touches no other draft |
| `Retail.FirstAvailable` | enygma_demo/js/retail.js:198 | the timer picks the first available note of its owner, or none exactly when there is none |
| `Amounts.PositiveAmount` | enygma_demo/js/demo-engine.js:126-130 | exactly the finite numbers from 0.5 up are accepted; the result is the nearest whole number, halves rounded up, clamped at one trillion |
| `AuctionRuns.SettlementPays` | enygma_demo/js/demo-engine.js:1024-1057 | under the button guards settlement pays the seller the announced amount, delivers the certificate to the announced bidder, returns to each loser exactly its own bid and pays out in USD exactly what was bid; in every continuation it stays, its notes stay, and it is never offered again |
| `AuctionOutcomes.SubmitExact` | enygma_demo/js/demo-engine.js:945-968 | in every state: when a bid is accepted, and that bid and change add up to the spent note's amount |
| `AuctionOutcomes.StagesInOrder` | enygma_demo/js/demo-engine.js:883-1058 | in every run of the engine alone each stage presupposes the earlier ones |
| `AuctionOutcomes.WalkthroughSettles` | enygma_demo/js/demo-engine.js:883-1058 | for any amounts the walkthrough settles: from 610 on the visitor wins and pays its bid, below that party 4 wins for 610 and the visitor holds all it shielded; every note at the end, in order |
| `AuctionSafety.PayoutExact` | enygma_demo/js/demo-engine.js:1024-1057 | with all bids active and positive, settlement pays out in USD exactly what was bid if and only if no second bid carries the winner's id |
| `AuctionSafety.FindsFirst` | enygma_demo/js/demo-engine.js:1027 | the lookup by id finds the first bid that carries it |
| `AuctionUnguarded.RunPending` | enygma_demo/js/demo-engine.js:945-1016 | in every unsettled run of the engine alone all bids are active and positive, and the announced winner made a bid of the announced amount |
| `AuctionUnguarded.StepKeepsMaximal` | enygma_demo/js/demo-engine.js:945-1016 | before settlement, for the engine alone: an announcement makes the announced bid maximal; every other step keeps it so if and only if it is not a collection above the announced amount (610) or a bid above it |
| `AuctionUnguarded.MaximalIff` | enygma_demo/js/demo-engine.js:900-1016 | in every unsettled run of the engine alone the announced bid is a maximum of all bids if and only if every collection and bid since its announcement was within that amount |
| `AuctionUnguarded.SettlementExact` | enygma_demo/js/demo-engine.js:1024-1057 | for any settlement in any run of the engine alone: the winner's bid is found; the settled bid is maximal if and only if the run covered it; the payout is what was bid if and only if no second bid shares the winner's id, and then the seller gets the announced amount |
| `AuctionUnguarded.RelistingFails` | enygma_demo/js/demo-engine.js:900-925 | a concrete run: all bids collected and 610 announced, the certificate is minted and listed again, a second bid of the visitor of 900 is accepted, and the settlement still applies and creates a proceeds note of 610 for the seller |
| `RetailSessionRuns.Conservation` | enygma_retail_payments/demo/session.go:1047-1072 | in every reached state balance plus pending value of all parties is exactly what was seeded, and every note is positive and opens under its owner's registered key |
| `RetailSessionRuns.GateExcludes` | enygma_retail_payments/demo/session.go:352-361 | at most one action runs, exactly while the gate says so; until it ends no action starts, the actor cannot be switched, and only an unfinished channel preview can still arrive |
| `RetailSessionRuns.SelectionStands` | enygma_retail_payments/demo/session.go:914-1048 | from selection to booking the selected note stays a smallest sufficient spendable note of the sender and the channel stays open |
| `RetailSessionRuns.PaymentAllOrNothing` | enygma_retail_payments/demo/session.go:873-1072 | a section of a payment changes the notes if and only if it is the booking section and everything before it succeeded; then exactly the amount moves from the sender's balance to the recipient's pending value and nobody else's holdings change |
| `RetailSessionLosses.AgreesIff` | enygma_retail_payments/demo/session.go:987-1048 | local spent flags and the chain's nullifiers agree if and only if no step so far was a losing one (a first proof mined but not readable, or a relay failing before the booking) and no payment is between mining and booking |
| `RetailSessionLosses.LostIff` | enygma_retail_payments/demo/session.go:987-1045 | over every run some note has been lost if and only if one of those events has occurred |
| `RetailSessionLosses.LossStep` | enygma_retail_payments/demo/session.go:987-1045 | from every state of the invariant the losing events, and no other step, add a note to the lost ones, namely the selected note of the payment |
| `RetailSessionLosses.LostNeverPays` | enygma_retail_payments/demo/session.go:873-1045 | from every reached idle state a payment that selects a lost note ends with the books unchanged, even when every external step would succeed |
| `RetailSessionLosses.SomeLoss` | enygma_retail_payments/demo/session.go:987-1045 | a fresh session reaches a loss: the steps of a good payment with one answer changed leave it idle with the same notes, the selected one lost, still spendable for the session, and the books in disagreement with the chain |
| `RetailSessionRuns.BookedIff` | enygma_retail_payments/demo/session.go:987-1048 | before relaying: a payment whose later steps succeed is booked if and only if its note was not lost by an earlier payment; otherwise it ends with the books unchanged |
| `RetailSessionLosses.LostForever` | enygma_retail_payments/demo/session.go:1014-1045 | in every continuation a lost note stays in the list, lost, nullified on the chain, and spendable for the session |
| `RetailSessionRuns.PaymentGoesThrough` | enygma_retail_payments/demo/session.go:873-1108 | from every reached idle state a permitted payment over an open channel is booked when the external steps succeed, unless its note was lost |
| `RetailSessionRuns.ChannelOpens` | enygma_retail_payments/demo/session.go:695-869 | from every reached idle state the actor can open a channel to any other party |
| `RetailSessionRuns.SomePayment` | enygma_retail_payments/demo/session.go:422-521 | a fresh session can be registered and seeded, open a channel and complete a payment |
| `RetailSessionRuns.RegistrationRecoversIff` | enygma_retail_payments/demo/session.go:422-521 | an idle unregistered session can still be registered if and only if no registration transaction was ever mined |
| `RetailSessionRuns.RegistrationFails` | enygma_retail_payments/demo/session.go:422-521 | a fresh session reaches an idle, unregistered state that no continuation registers |
| `RetailSessionRuns.ScanExact` | enygma_retail_payments/demo/session.go:1225-1260 | in every reached scanning state a decrypted payload makes the first note that opens under the scanner's key discovered; it is the scanner's, and if unspent and new its amount moves from pending to balance; everything else stays, and without such a note nothing changes |
| `RetailSessionRuns.DiscoverFinds` | enygma_retail_payments/demo/session.go:1248-1261 | the first note with the recomputed commitment is discovered, and no other changes |
| `RetailSessionRuns.ScanFinds` | enygma_retail_payments/demo/session.go:1116-1260 | from every reached idle state the actor can find an undiscovered note of its own by scanning its tag: the amount moves from pending to balance |
| `RetailSessionRuns.ChecksExact` | enygma_retail_payments/demo/session.go:795-935 | the checks of payments, channel openings and scans in every reached state: when the action goes on, with which parties, and that it ends otherwise with nothing else changed |
| `RetailSessionRuns.PreviewExact` | enygma_retail_payments/demo/session.go:695-790 | which computed previews are kept, and with which number |
| `RetailSessionRuns.PublishesPreview` | enygma_retail_payments/demo/session.go:795-869 | the published channel is the previewed one, whoever acts by then |
| `RetailSessionRuns.ActorSwitches` | enygma_retail_payments/demo/session.go:643-660 | when the actor is switched, and that nothing else changes |
| `RetailSessionRuns.FreshRegistration` | enygma_retail_payments/demo/session.go:422-620 | a fresh session can be registered, and then the three controllable parties hold 100 each and nobody else anything |
| `RetailSessionRuns.PaymentConserves` | enygma_retail_payments/demo/session.go:1047-1072 | booking preserves the value that all parties hold together |
| `RetailSessionRuns.OwnersKey` | enygma_retail_payments/demo/session.go:1236 | registered keys differ, so a note opens under its owner's key only |
| `RetailSessionRuns.RunInv` | enygma_retail_payments/demo/session.go:373-1276 | the books, the keys, the gate and what the running action relies on are in order in every reached state |
| `RetailSessionRuns.NextInv` | enygma_retail_payments/demo/session.go:373-1276 | every section of every action keeps that invariant, whatever its external step answers |
| `RetailSessionEngine.Session.SpendableNotes` | enygma_retail_payments/demo/session.go:382-391 | exactly the owner's unspent discovered positive notes, each once, smallest first |
| `RetailSessionEngine.Session.SelectNote` | enygma_retail_payments/demo/session.go:914-928 | a smallest sufficient note, or none exactly when every spendable note is too small |
| `RetailSessionEngine.Session.SelectInput` | enygma_retail_payments/demo/session.go:914-928 | the selection section in place is the selection step of the run model |
| `RetailSessionEngine.Session.FinishPayment` | enygma_retail_payments/demo/session.go:1004-1072 | the booking section in place: either all of spend, change and output are booked, or none and the note is lost |
| `RetailSessionEngine.Session.DiscoverNote` | enygma_retail_payments/demo/session.go:1248-1261 | the search loop makes exactly the first note with the recomputed commitment discovered, and changes nothing if there is none |
| `RetailSessionEngine.SortByPermutes` | enygma_retail_payments/demo/session.go:389 | the sort permutes the positions it is given |
| `PaymentsMirror.GoCommitIsPedersen` | enygma_payments/demo/main.go:827-828 | a commitment made from unreduced scalars opens to its arguments if and only if the library is exact for the value; nonnegative values always are |
| `PaymentsMirror.TransferBalances` | enygma_payments/demo/main.go:1000-1049 | the deltas of a transfer the handler accepts sum to the neutral point if and only if the library's products of the negative receiver amounts add up to the group's; without negative amounts they always do |
| `PaymentsMirror.TxCommitOpens` | enygma_payments/demo/main.go:1037-1049 | a submitted delta opens to what the mirror books if and only if the library is exact for its amount |
| `PaymentsMirror.Booked` | enygma_payments/demo/main.go:1270-1276 | adding a delta and reducing the randomness books what the delta opens to, and adds what it is off by to what the balance was off by |
| `PaymentsMirror.GoCommitDiffers` | enygma_payments/demo/main.go:827-828 | a commitment is off by exactly the difference between the library's and the group's product, which is neutral if and only if the library is exact |
| `PaymentsMirror.Demo.MirrorsIff` | enygma_payments/demo/main.go:1263-1279 | after any sequence of operations the mirror is exact if and only if, bank by bank, all that the library was off by has cancelled out |
| `PaymentsMirror.Demo.Register` | enygma_payments/demo/main.go:827-842 | a first registration stores Com(0, r) and books r, a repeated one changes nothing; every balance stays its opening plus its drift, and the mirror is as exact as before |
| `PaymentsMirror.Demo.Mint` | enygma_payments/demo/main.go:878-897 | an accepted mint adds Com(amount, r) on the chain, the amount and r modulo the order in the books; a rejected one changes nothing; every balance stays its opening plus its drift, and the mirror is as exact as before |
| `PaymentsMirror.Demo.Transfer` | enygma_payments/demo/main.go:1263-1279 | an accepted transfer moves every bank's chain balance, booked value and booked randomness by its delta, from any state; each receiver's drift grows by what the library is off for its amount, and an exact mirror stays exact if and only if the library is exact for every receiver amount |
| `PaymentsMirror.BooksAreMoved` | enygma_payments/demo/main.go:1263-1269 | an accepted transfer takes the amount from the sender's book, adds each receiver its own amount and moves no value in total |

## Left out

- Poseidon rounds and their constant tables: a hash is a free constructor per arity; the numeric value of a hash is a
  parameter where the code reduces it to a scalar.
- Associativity of the curve addition and the order of the two generators: hypotheses of `CurveGroup.BabyJubjubLawful`,
  known facts about Baby Jubjub that the repository itself takes as given. The ledgers are proved for every lawful group.
- That FIELD is prime and that 168696 to the power of half of FIELD - 1 is -1 modulo it: hypotheses of
  `CurveCompleteness.SumReturnsByEuler`. They are known properties of the constants; no certificate for them is part of
  this project.
- JavaScript number parsing: amounts and ids are integers with the 2^53-1 guards kept, except in the DvP and auction
  cases, where the rounding of `positiveAmount` is modelled over real numbers.
- The `funded` and `mintCount` fields, names, labels, ciphertexts, receipts, policies and other display fields.
- Setup, registration, migration of saved sessions, loading and resetting: runs start from the state after all parties are registered.
- Random ids and salts: transaction and note ids are ordinals, and salts come from a supply of distinct values.
- The browser engine stores transactions newest first; the model stores them oldest first, and looks up accordingly.
- DvP expiry blocks, the derived `locked`, `issued` and `cashShielded` fields, and the background traffic of the DvP and
  auction walkthroughs, which touches none of the modelled fields.
- DvP unshielding moves 25 units from the private to the public counter without spending a note; the model keeps that,
  so the received-security invariant is about the two counters together.
- External effects of the Go demos (proof generation, relayer, contract, RPC) are parameters that say whether the step
  succeeded; the contract is modelled only as adding the submitted commitments.
- 64-bit wrap-around of the Go counters.
- What the Go curve library does with a negative scalar is a parameter of `PaymentsMirror.Library`; the library is not part
  of this model.
- PaymentsMirror.Demo.Transfer: all six banks are registered and the chain stores the submitted commitments, as the demo assumes.
- The Go session's registry indices are the parties' positions, as on the clean chain that the demo asks for.
- Of the Go session's channels only the pair of parties is kept; which candidate sets and bitmaps they carry is left out.
- Key encapsulation, AES-GCM, tag derivation, proof systems and circuits other than the path fold and the nullifier.
