# A verified model of the Dogecoin withdrawal operator

The operator pays withdrawals that users request on Solana out of Dogecoin custody. It batches
requests, has the batch snapshotted on chain, prepares one Dogecoin transaction that spends P2SH
multisig custody, has the Managers sign it, broadcasts it and finally accounts for its change. This
project models that code in Dafny and proves what it is relied on for. `dafny verify dfyconfig.toml`
checks everything.

The main results:

- **Every accepted transaction pays its requests.** `Payouts.AcceptedPays`: in every reachable state, each
  transaction that Electrs has accepted belongs to one landed batch, pays that batch's requests one by one,
  to the satoshi and to their recipients, returns the rest to custody and validly spends the reserved UTXOs.
  `Payouts.SettledRequestIsPaid`: every request up to the last confirmed batch has been paid by exactly one
  of them. Here the bytes and the state machine meet.
- **Whatever is applied spends.** `Signing.EveryInputSpends`: when `apply_manager_signatures` accepts,
  every custody input of the signed transaction satisfies its P2SH output under a script evaluator with
  the greedy CHECKMULTISIG of BIP 11 and the two evaluations of BIP 16. `Prepare.PreparedSpends` says so of
  the stored address and script of every reserved UTXO, for any Manager set and any accepted signers;
  `Manager.PreparedSignedSpends` closes the loop over the local Manager service and its response.
- **Safety over every run, crashes included.** Operator, chain, users and Electrs form one state machine
  whose operator steps are single durable writes, so that a crash is nothing but another step coming
  next. In every reachable state the landed batches partition the requests up to the on-chain cursor
  (`Runs.LandedRangesPartition`), no request is paid by two transactions (`Runs.NoRequestPaidTwice`), a
  failed batch never lands (`Runs.FailedNeverLands`), drift checks never fail
  (`Runs.SignedAlwaysContinues`, `Runs.BroadcastAlwaysIntact`) and custody balances to the satoshi
  (`Conservation.CustodyBalances`).
- **Whole invocations are runs.** The procedures are methods over the store. Whatever one invocation of the
  operator writes, resumed (`ResumeRuns.ResumingIsRun`) or fresh (`StartRuns.StartIsRun`), is a run of that
  machine: preparing, checking the Managers' response, applying signatures and deriving the confirmed change
  are computed, and only what the outside says is assumed true and new. One invocation with favourable
  answers takes a batch from any stage to broadcast (`ResumeProgress.FavourableResumeFinishes`), and
  `Completion.WithdrawalCompletes` follows a payment from an empty store to its confirmation, with the local
  service as Managers.
- **Recovery converges.** `BroadcastRecovery.RecoveryConverges`: any number of crashes inside the
  broadcast transition leads to one and the same intact store.
- **The sparse custody tree is the full tree.** Level maps that drop zero hashes refine the recursive
  tree, sequential spend proofs chain its roots, and spending depends on the set of positions only.
- **Procedures leave what they should.** The store after settling, failing, recording, persisting, relaying and
  finalizing is given table by table and entry by entry (`Outcomes`), and the checks in between are
  characterized on the tables (`Links`). The local service grants exactly the registrations that pay their
  payload (`Manager.GrantedExactly`).
- **Formats are exact.** Redeem scripts, transactions, payloads, VAAs and commitments are given byte by byte,
  in numbers. Persisted transactions and UTX0 payloads are accepted exactly when they are
  serializations; redeem scripts, sighash preimages and commitment preimages determine what they were
  built from; script numbers decode back; decimal amounts are converted exactly.

## Layout

| files | subject |
|---|---|
| `Bytes`, `Utx0`, `Vaa`, `OperatorRows` | integers as bytes, payloads, VAAs, Manager sets, rows of UTXOs and requests |
| `Wire`, `WireLayout`, `WireProofs`, `Transaction`, `Sighash` | legacy transactions: values and wire form, its bytes in numbers, parser and printer, the classes that read and hold them, what is signed |
| `Script`, `Redeem`, `Signing` | a reference script evaluator, redeem scripts, applying Manager signatures |
| `Prepare`, `Manager` | building and recovering withdrawals, the local Manager service |
| `MerkleTree`, `SpentTxo`, `MembershipProofs` | sparse tree, spent positions, fixed-height and block Merkle proofs |
| `Store`, `Outcomes`, `Withdrawal`, `Links`, `Resume`, `Start`, `BroadcastRecovery` | the durable store, what procedures leave in it, the operator's procedures, its checks of linked records, whole invocations, interrupted broadcasts |
| `Machine`, `MachineFrames`, `ChainSteps`, `OperatorSteps`, `SignedSteps`, `FinalSteps` | the state machine, its invariants, and that every step keeps them |
| `Runs`, `Conservation`, `Totals`, `Provenance` | theorems over runs; what the persisted bytes are in every reachable state |
| `Procedures`, `BroadcastRuns`, `OperatorRules`, `ResumeRuns`, `ResumeProgress`, `StartRuns` | procedures and whole invocations as runs, and their progress |
| `Payouts`, `Completion` | what accepted transactions pay and spend, and a payment from start to end |
| `Decimal`, `Commitment`, `Daemon` | amounts as text, spent commitments, the poll loop |

Code that works in place is a class or a method with loops, proved against a function of its inputs or of
the old state; code made of expressions is a function. What the source promises is then proved about those
functions. Exceptions and error returns are `Result`; error texts are not modelled.

## Assumptions

- Hashes, public-key and DER validity, and ECDSA verification are uninterpreted; no theorem assumes that
  hashes do not collide, beyond the freshness named below. A DER signature that verifies has at most 72
  bytes. For the local Manager service, signing under a secret verifies under the matching public key.
- The index decoder of the custody tree, which is external, returns a leaf index below 2^45 and an 8-bit
  bit index.
- `OperatorStore` is external. Each of its operations is one atomic write with the effect given in
  `Store`; a process that stops leaves the effect of a prefix of its writes. One operator works at a time.
- The bridge program lands a snapshot only while its expected start is the on-chain cursor, and then moves
  the cursor to the batch end. A snapshot that was rejected, or whose blockhash expired before it landed,
  never lands. What the operator reads about a snapshot (status, metadata, blockhash, cursor) is one truthful
  observation; between it and the confirmation the snapshot may land.
- Snapshot signatures, reservation identifiers, raw-transaction hashes and change outpoints are new when
  they are first stored. Electrs answers truthfully. The model lets a snapshot land from the moment its
  batch is stored, whether or not it was sent, which only adds behaviours.
- The store selects distinct available UTXOs for a new reservation and adds up their value; it gives rows
  back as they were stored and in the same order.
- Over the runs of one machine, primitives, Manager sets by index, the bridge and the address encoding stay
  the same; fees, dust thresholds and the Manager set index in use may differ between invocations. Where
  progress is claimed, every script hash has an address.
- `minDust` is a lower bound of the dust thresholds used over a run.

## Model

| member | source | states |
|---|---|---|
| `Signing.ApplyManagerSignatures` | doge/src/commands/process_withdrawal.rs:1824-1872 | succeeds exactly when the signers are distinct, every one of their signatures verifies for its input and key, and (if there are inputs) at least m signers answered; on success every input carries its m lowest-indexed signatures and its redeem script, on failure the transaction is untouched |
| `Signing.SelectedMatch` | doge/src/commands/process_withdrawal.rs:1855-1868 | distinct signers sorted by index, cut to m, give exactly m signatures that the greedy in-order CHECKMULTISIG matching accepts against the Manager keys |
| `Signing.SelectedAreLowest` | doge/src/commands/process_withdrawal.rs:1855-1868 | what an input gets are the signatures of the m signers of lowest index, in ascending order: every signer left out has a higher index |
| `Signing.CheckAgrees` | doge/src/wormhole/manager.rs:520-540 | a signature that local verification accepted is accepted by consensus signature checking of the finished transaction, scriptSigs of all inputs included |
| `Signing.EveryInputSpends` | doge/src/commands/process_withdrawal.rs:1824-1872 | whenever signatures are accepted, every custody input of the resulting transaction satisfies its P2SH output with exactly one true element left |
| `Script.MultisigIffMatching` | doge/src/wormhole/redeem.rs:119-170 | the greedy matching of CHECKMULTISIG (BIP 11) succeeds exactly when some strictly increasing choice of keys verifies the signatures in order |
| `Script.KeyHashIffRecipient` | doge/src/wormhole/tx.rs:33-39 | a payment to a key hash is spent by a signature and a key exactly if the key hashes to the recipient and the signature is a valid SIGHASH_ALL signature of the spending input |
| `Redeem.RunRedeem` | doge/src/wormhole/redeem.rs:119-170 | evaluating a built redeem script over a dummy, m signatures and nothing else drops chain, contract and recipient and leaves exactly the verdict of the multisig check |
| `Redeem.RedeemLength` | doge/src/wormhole/redeem.rs:119-170 | a built script has 74 + 34n bytes, at most 516 for n up to 13, hence below the limit of BIP 16 |
| `Redeem.RedeemInjective` | doge/src/wormhole/redeem.rs:119-170 | equal scripts have equal chain, contract, recipient, threshold and key list |
| `Redeem.BuildRedeem` | doge/src/wormhole/redeem.rs:119-170 | succeeds exactly for 1 <= m <= n <= 13, and then gives these bytes by position: 02 and the big-endian chain, 20 and the contract, 2DROP, 20 and the recipient, DROP, the opcode of m, 21 and each key of 33 bytes, the opcode of n, CHECKMULTISIG |
| `Redeem.RedeemUnique` | doge/src/wormhole/redeem.rs:119-170 | no other bytes have that layout, so it is the script |
| `Redeem.AppendInt` | doge/src/wormhole/redeem.rs:62-103 | appends the opcode or minimal push specified by `PushInt`, over every 64-bit integer |
| `Redeem.PushIntDecodes` | doge/src/wormhole/redeem.rs:62-103 | what `push_int` pushes decodes back to its value as a minimal script number, for exactly the 64-bit integers above the least one |
| `Sighash.PreimagesAreStable` | doge/src/wormhole/tx.rs:153-220 | no sequence of `apply_script_sig` calls changes the sighash preimage of any input, for every hash type |
| `Sighash.ScriptSigsAreNotSigned` | doge/src/wormhole/tx.rs:153-200 | transactions that differ only in scriptSigs have the same preimages |
| `Sighash.PreimagesAreInputSpecific` | doge/src/wormhole/tx.rs:149-200 | the SIGHASH_ALL preimages of two different inputs coincide exactly when both redeem scripts are empty |
| `Sighash.PreimageCommits` | doge/src/wormhole/tx.rs:153-200 | equal SIGHASH_ALL preimages agree on version, outpoints, sequences, outputs and lock time of the transactions |
| `Sighash.TransactionInjective` | doge/src/wormhole/tx.rs:427-451 | the wire form determines version, inputs, outputs, lock time and everything that follows it |
| `Transaction.WriteVarint` | doge/src/wormhole/tx.rs:57-70 | appends the shortest CompactSize form |
| `Transaction.PushDataInline` | doge/src/wormhole/tx.rs:453-467 | appends the shortest push of the data |
| `Transaction.WriteTransaction` | doge/src/wormhole/tx.rs:427-451 | writes the wire form that the parsing lemmas are about, which is, in numbers and by position: version, shortest count, each input as outpoint, counted scriptSig and sequence, shortest count, each output as value and counted script, lock time |
| `WireLayout.UnsignedIffAssembled` | doge/src/wormhole/tx.rs:97-135 | there is exactly one unsigned transaction over given outpoints and outputs: version 1, reversed txids, empty scriptSigs, sequences ffffffff, standard scripts byte by byte, lock time 0; it is the one that is assembled |
| `Transaction.TransactionReader.ReadExact` | doge/src/wormhole/tx.rs:362-373 | takes exactly the requested bytes off the unread rest, or fails and moves nothing |
| `Transaction.TransactionReader.ReadCount` | doge/src/wormhole/tx.rs:387-417 | accepts a count only in its shortest form |
| `Transaction.TransactionReader.ReadInput` | doge/src/wormhole/tx.rs:247-273 | accepts an input only when it spends the expected outpoint with an empty scriptSig and final sequence |
| `Transaction.TransactionReader.ReadOutput` | doge/src/wormhole/tx.rs:284-304 | accepts an output only with a standard script of at most 25 bytes |
| `Transaction.UnsignedTransaction.New` | doge/src/wormhole/tx.rs:97-135 | fails exactly without inputs or without outputs; the result has version 1, lock time 0, byte-reversed outpoints with empty scriptSigs and final sequences, and outputs with their amounts and standard scripts, written out |
| `Transaction.UnsignedTransaction.FromPersistedBytes` | doge/src/wormhole/tx.rs:225-323 | the reader-driven parser computes `ParsePersisted`, which `WireProofs.AcceptedIffPrinted` characterizes, and what it yields is unsigned over the selected inputs |
| `Transaction.UnsignedTransaction.SighashPreimage` | doge/src/wormhole/tx.rs:153-200 | the edited copy of the inputs yields the preimage; for every hash type it is the wire form of the inputs and outputs that the type selects, written out, and then the type |
| `Transaction.UnsignedTransaction.ApplyScriptSig` | doge/src/wormhole/tx.rs:202-220 | sets one scriptSig in place and changes nothing else; fails without effect on a bad index |
| `WireProofs.ParsePrinted` | doge/src/wormhole/tx.rs:225-327 | serializing a transaction of at most 1000 inputs and 1 to 320 outputs and parsing it gives the transaction back |
| `WireProofs.PrintParsed` | doge/src/wormhole/tx.rs:225-327 | accepted bytes re-serialize to themselves, so the final canonical-encoding check never fails |
| `WireProofs.AcceptedIffPrinted` | doge/src/wormhole/tx.rs:225-323 | bytes are accepted as a transaction exactly when they are its serialization, within the input and output limits |
| `WireProofs.VarintPrefixFree` | doge/src/wormhole/tx.rs:57-70 | no CompactSize form is a prefix of another value's form |
| `WireProofs.RecoveryIgnoresRedeemScripts` | doge/src/wormhole/tx.rs:225-323 | acceptance depends on the outpoints only: other redeem scripts give the same transaction with those scripts |
| `Utx0.Serialize` | doge/src/wormhole/utx0.rs:82-103 | fails exactly when the output count exceeds 32 bits; otherwise the bytes are, by position and in numbers, the letters UTX0, chain, Manager set, count, and 32 bytes per output |
| `Utx0.ParseIffSerialized` | doge/src/wormhole/utx0.rs:40-148 | a byte string parses to a payload exactly when it is that payload's serialization |
| `Prepare.CheckedSumExact` | doge/src/commands/process_withdrawal.rs:1627-1630 | the checked sum succeeds exactly when the exact total fits 64 bits, and is that total |
| `Prepare.PreparedPaysExactly` | doge/src/commands/process_withdrawal.rs:1619-1738 | a prepared transaction pays the payload's outputs in order plus at most one change output, outputs and fee add up to the selected value, change is never dust, and every input carries the Manager multisig script |
| `Prepare.PreparedSpends` | doge/src/commands/process_withdrawal.rs:1619-1872 | for any Manager set and any accepted signers, the signed transaction has the prepared outputs and one input per reserved UTXO, in order, which names its outpoint and satisfies the P2SH output of its stored address and script |
| `Prepare.PreparesIffAffords` | doge/src/commands/process_withdrawal.rs:1619-1738 | preparing afresh succeeds exactly when the reservation is worth payload, fee and a change that is nothing or not dust, it has inputs, each rebuilds to its own stored address and script, and the Manager set can make a script |
| `Prepare.RebuiltExactly` | doge/src/commands/process_withdrawal.rs:1649-1687 | an input is rebuilt exactly as the UTXO's outpoint with a script of chain 1, the bridge, the UTXO's depositor and the Manager keys, whose hash is encoded in the stored address and stands in the stored script, if there is one |
| `Prepare.RecoveryIffSameBytes` | doge/src/commands/process_withdrawal.rs:1619-1738 | recovery from persisted bytes succeeds exactly for the bytes that preparing afresh produces, within the parser limits, and gives the same result |
| `Prepare.CappedBatchRecovers` | doge/src/commands/process_withdrawal.rs:1619-1738 | a prepared batch of at most 319 outputs is recovered from its own bytes exactly when it has at most 1000 inputs |
| `Prepare.ConfirmedChangeIsPlanned` | doge/src/commands/process_withdrawal.rs:1341-1445 | whatever the confirmed outputs are, deriving the change succeeds exactly when they return the prepared change (and its address encodes and key references agree), and gives the planned outpoint and amount, the confirmed script, its address, no depositor, and the key reference of every UTXO that was spent, or none |
| `Prepare.ChangeJoinsItsKey` | doge/src/commands/process_withdrawal.rs:1405-1419 | a reservation that the tracked change joins has one key reference exactly if all its other UTXOs have the key reference of what was spent |
| `OperatorRows.OutputsFulfil` | doge/src/commands/process_withdrawal.rs:1558-1580 | the outputs of a payload are exactly those that pay the requests one by one: net amount, address type, recipient |
| `OperatorRows.OutputsExist` | doge/src/commands/process_withdrawal.rs:1558-1580 | there are such outputs exactly when every request names a known address type |
| `MerkleTree.BuildParents` | doge/src/custody_ops.rs:250-269 | one level up, a level map still holds exactly the full tree's nodes that are not zero hashes, although parents equal to the zero hash are dropped |
| `MerkleTree.BuildSparseLevels` | doge/src/custody_ops.rs:237-273 | every level map, with the zero hash as default, agrees with the recursive full-tree node hash at every index |
| `MerkleTree.ComputeSparseRoot` | doge/src/custody_ops.rs:230-235 | the computed root is the recursive root of the full tree |
| `MerkleTree.MerkleRootFromProof` | doge/src/custody_ops.rs:275-285 | the loop computes the fold of a leaf with its siblings |
| `MerkleTree.ReadSiblings` | doge/src/custody_ops.rs:109-114 | the siblings read from the level maps are the full tree's siblings along the path |
| `MerkleTree.FoldIsAncestor` | doge/src/custody_ops.rs:275-285 | folding a leaf with its path siblings gives its ancestor node at every level |
| `MerkleTree.UpdateOffPath` | doge/src/custody_ops.rs:124-130 | changing one leaf changes no node off its path |
| `MerkleTree.SiblingsSurviveUpdate` | doge/src/custody_ops.rs:124-130 | the siblings of a leaf stay valid when the leaf itself changes |
| `MerkleTree.ProofFoldsToRoot` | doge/src/custody_ops.rs:115-122 | a leaf with its path siblings folds to the root |
| `SpentTxo.RebuildLeaves` | doge/src/custody_ops.rs:57-68 | inserting bits one by one gives exactly the touched leaves; read as numbers, the binary digit b mod 8 of byte b / 8 of leaf i is 1 exactly if some index decodes to leaf i and bit b |
| `SpentTxo.UpdatedLeafValues` | doge/src/custody_ops.rs:70-90 | returns exactly the touched leaves, with the values that spending all indices gives; as binary digits these are the digits from before and those that some index decodes to |
| `SpentTxo.ProveSpend` | doge/src/custody_ops.rs:99-139 | one step fails exactly if that binary digit is 1 already; otherwise the proof carries the leaf from before, its root folds from that leaf, and the new root is that of the tree whose leaf differs in that digit alone, so both root comparisons always hold |
| `SpentTxo.BuildSequentialProofs` | doge/src/custody_ops.rs:92-142 | succeeds exactly when no position is already spent when its turn comes; then every step is proved, and the leaves have gained exactly the binary digits that the indices decode to |
| `SpentTxo.ProofsChain` | doge/src/custody_ops.rs:92-142 | each new root is the next old root; the first and last are the roots of the initial and final maps |
| `SpentTxo.CanSpendIffFresh` | doge/src/custody_ops.rs:92-142 | all positions can be spent in turn exactly when they are pairwise distinct after decoding and unset in the given map |
| `SpentTxo.SpendAllBits` | doge/src/custody_ops.rs:57-68 | a binary digit of a leaf is 1 afterwards exactly when it was before or some index decodes to it |
| `SpentTxo.SetBitAdds` | doge/src/custody_ops.rs:61-65 | setting a bit by its mask makes that one binary digit 1 and changes no other |
| `SpentTxo.MaskTestsDigit` | doge/src/custody_ops.rs:103-106 | testing a byte with the mask of bit k tests its k-th binary digit |
| `SpentTxo.SpendingIsOrderIndependent` | doge/src/custody_ops.rs:57-142 | lists that decode to the same positions give the same map |
| `SpentTxo.PermutationsAgree` | doge/src/custody_ops.rs:57-142 | a permutation of the indices succeeds exactly when the list does and gives the same map |
| `SpentTxo.SpendingContinues` | doge/src/custody_ops.rs:57-142 | rebuilding from S and then spending T is rebuilding from S followed by T |
| `SpentTxo.CanSpendContinues` | doge/src/custody_ops.rs:57-142 | S followed by T can be spent exactly when S can, and T can after S |
| `MembershipProofs.BuildFixedProofs` | doge/src/custody_ops.rs:146-182 | fails exactly for more than 2^32 - 1 leaves or an index out of range; otherwise every proof folds its leaf, zero leaves included, to the returned root |
| `MembershipProofs.ProveLeaf` | doge/src/custody_ops.rs:166-180 | a single proof folds to the root, so the mismatch check never fails |
| `MembershipProofs.RootIsPadded` | doge/src/custody_ops.rs:153-164 | the sparse root is the root of the leaf list padded with zero leaves to the full height |
| `MembershipProofs.BuildTransactionBranch` | doge/src/custody_ops.rs:186-218 | fails exactly for an empty list or an index out of range; otherwise the branch folds from the target to the root, which is the recursive duplicate-last Merkle root, and has ceil(log2 n) siblings |
| `MembershipProofs.WidthIsCeiling` | doge/src/custody_ops.rs:201-217 | halving rounds up: level k of n transactions has ceil(n / 2^k) nodes |
| `Withdrawal.LoadsIffLinked` | doge/src/commands/process_withdrawal.rs:876-939 | a graph loads exactly when batch, process, transaction, every request mapping and every custody UTXO point at each other |
| `Links.CompleteIffAllSigned` | doge/src/commands/process_withdrawal.rs:941-968 | a graph counts as complete exactly if it is linked and transaction, process, every request, the reservation and each of its UTXOs are signed, held and unspent in their tables |
| `Links.StartedIffAnyBroadcast` | doge/src/commands/process_withdrawal.rs:1496-1505 | a transition counts as begun exactly if some table shows it |
| `Links.IntactIffAllBroadcast` | doge/src/commands/process_withdrawal.rs:1235-1270 | a batch passes the drift checks exactly if it is linked, its bytes hash to what is stored, and every table says broadcast |
| `Withdrawal.ApplyObservedTerminalEffect` | doge/src/commands/process_withdrawal.rs:673-699 | Fail releases held custody before the batch is marked failed; it leaves that reservation released, its UTXOs free, the batch failed and everything else as it was; every other action writes nothing, and only the two waiting outcomes succeed |
| `Withdrawal.FinishConfirmedSnapshot` | doge/src/commands/process_withdrawal.rs:795-874 | succeeds exactly if the snapshot executed, the cursor is at the batch end and the content agrees; then the batch and each of its requests have the status Constructed (Snapshotted without unsigned bytes) and nothing else has changed; a failed execution at the batch start fails the batch; otherwise nothing is written |
| `Withdrawal.RecordRequests` | doge/src/commands/process_withdrawal.rs:1582-1616 | succeeds exactly if every request has a fee and agrees in every column with what is stored; then new ones are stored as observed, known ones keep their status and nothing else changes; otherwise the same holds of the requests before the first that cannot be recorded |
| `Withdrawal.CompleteBroadcastTransition` | doge/src/commands/process_withdrawal.rs:1507-1533 | succeeds exactly if custody is held or spent by this very transaction; writes custody first, then transaction, process and requests, and the batch last; leaves all of them broadcast, custody on its way in the transaction, and everything else as it was |
| `Withdrawal.MarkBatchBroadcast` | doge/src/commands/process_withdrawal.rs:1474-1494 | needs a successful submission and a graph with the expected reservation, hash and txid; then makes exactly the transition's writes and leaves what the transition leaves |
| `Withdrawal.ContinueSigned` | doge/src/commands/process_withdrawal.rs:984-998 | a started transition is completed without asking any service; otherwise nothing is written unless the graph is complete, its bytes match their hashes, broadcasting is enabled and the submission succeeded |
| `Withdrawal.ResumeBroadcast` | doge/src/commands/process_withdrawal.rs:1235-1303 | finalizes with one write exactly when every drift check passes and the change could be derived; that leaves everything linked confirmed, custody spent, the change tracked and everything else as it was |
| `Resume.SettleSnapshot` | doge/src/commands/process_withdrawal.rs:701-781 | an observed batch is settled exactly if its snapshot did not fail, is known or was sent again in time, executed, and agrees; it is failed exactly if the snapshot failed, or is unknown and too late to send, while the cursor is at its start; what that leaves is stated entry by entry, and otherwise nothing is written |
| `Resume.PrepareAndSign` | doge/src/commands/process_withdrawal.rs:1001-1069 | signs exactly if the unsigned bytes are recovered, the response is a proper one for the bridge's message and its signatures are accepted; the result is the bytes of `Sign`, with the planned change |
| `Resume.ConfirmSnapshotBatch` | doge/src/commands/process_withdrawal.rs:783-793 | waits for the metadata and settles the batch by it: batch and requests constructed or snapshotted and nothing else changed, or failed, or untouched |
| `Resume.ContinueConstructed` | doge/src/commands/process_withdrawal.rs:1001-1114 | prepares, checks and applies the Managers' response, and persists the result under the hashes of its bytes, with mappings, links and statuses stated entry by entry; then, only if broadcasting is enabled and the submission succeeded, makes the transition |
| `Resume.ResumeSigned` | doge/src/commands/process_withdrawal.rs:984-998 | an interrupted transition is completed and followed by finalization in the same invocation |
| `Resume.ContinueSnapshotBatch` | doge/src/commands/process_withdrawal.rs:970-1170 | dispatches on the stage of the batch; a payload for another chain or Manager set fails and leaves the store as it was |
| `Resume.ResumeSnapshotBatch` | doge/src/commands/process_withdrawal.rs:701-781 | all durable writes of one invocation; an observed batch is settled, in all its requests and before anything else, or failed, or the store stays as it was |
| `Start.StartSnapshotBatch` | doge/src/commands/process_withdrawal.rs:362-632 | all durable writes of a fresh invocation: the requests, the batch with its reservation and unsigned bytes in one write, and then those of any invocation that has just sent the snapshot |
| `Start.BeginsExactly` | doge/src/commands/process_withdrawal.rs:362-616 | a batch is begun exactly if there are requests, the history covers the chain and agrees with what was asked, the roots agree, every address type is known, every request can be recorded, and a transaction is prepared; the write that begins it is given field by field, its end as cursor + 319 or the tip |
| `Start.SendAndContinue` | doge/src/commands/process_withdrawal.rs:617-632 | after sending, a fresh invocation does what a resumed one does that has resent |
| `BroadcastRecovery.RestartIsProgress` | doge/src/commands/process_withdrawal.rs:1507-1533 | stopping the status writes after k, restarting and stopping after j leaves the same store as stopping once after the larger number |
| `BroadcastRecovery.InterruptedResumes` | doge/src/commands/process_withdrawal.rs:1496-1533 | every store between the first and the last write of a transition is recognized and makes the status writes again, whatever the services answer |
| `BroadcastRecovery.CompletedIsIntact` | doge/src/commands/process_withdrawal.rs:1256-1270 | a completed transition passes every drift check of a broadcast batch |
| `BroadcastRecovery.CrashesStayOnTheWay` | doge/src/commands/process_withdrawal.rs:1507-1533 | any number of crashes at any points leaves the untouched store or one of the intermediate stores |
| `BroadcastRecovery.RecoveryConverges` | doge/src/commands/process_withdrawal.rs:984-998 | after any number of crashes the batch is signed or broadcast, and the next completed run reaches one and the same intact store |
| `ChainSteps.BeginKeeps` | doge/src/commands/process_withdrawal.rs:585-616 | reserving custody and inserting a new batch keeps every invariant, for every end after the cursor and up to the cap over the present tip |
| `ChainSteps.LandKeeps` | doge/src/commands/process_withdrawal.rs:586-632 | a landing snapshot keeps every invariant |
| `ChainSteps.DeathKeeps` | doge/src/commands/process_withdrawal.rs:649-671 | a rejected or expired snapshot keeps every invariant |
| `ChainSteps.RecordKeeps` | doge/src/commands/process_withdrawal.rs:1582-1616 | recording a request keeps every invariant |
| `OperatorSteps.ReleaseKeeps` | doge/src/commands/process_withdrawal.rs:686-699 | releasing the custody of a dead batch keeps every invariant |
| `OperatorSteps.BatchStatusKeeps` | doge/src/commands/process_withdrawal.rs:862-874 | marking a batch failed, constructed or broadcast keeps every invariant |
| `SignedSteps.PersistedIsComplete` | doge/src/commands/process_withdrawal.rs:1068-1102 | persisting the signed transaction makes a graph that passes the checks of a complete signed batch, whatever statuses its requests had |
| `SignedSteps.PersistKeeps` | doge/src/commands/process_withdrawal.rs:1068-1102 | persisting the signed transaction keeps every invariant |
| `SignedSteps.MarkKeeps` | doge/src/commands/process_withdrawal.rs:1507-1516 | marking the reservation broadcast keeps every invariant |
| `FinalSteps.FinishTotals` | doge/src/commands/process_withdrawal.rs:1283-1301 | finalizing moves exactly what the batch required from custody to what was paid and leaves the rest as change |
| `FinalSteps.FinalizeKeeps` | doge/src/commands/process_withdrawal.rs:1283-1301 | finalizing a confirmed batch and tracking its change keeps every invariant |
| `Runs.StepKeeps` | doge/src/commands/process_withdrawal.rs:362-632 | every step of operator, chain, users or Electrs keeps every invariant |
| `Runs.RunKeeps` | doge/src/commands/process_withdrawal.rs:362-632 | the invariants hold at every point of every run |
| `Runs.ConsecutivePartition` | doge/src/commands/process_withdrawal.rs:635-639 | consecutive ranges cover each request between their ends by exactly one range, and no other request |
| `Runs.LandedRangesPartition` | doge/src/commands/process_withdrawal.rs:586-632 | in every reachable state the landed ranges are consecutive, of 1 to 319 requests, and cover each request from the first to the current cursor exactly once |
| `Runs.FailedNeverLands` | doge/src/commands/process_withdrawal.rs:649-699 | a batch that is failed at any time of a run has landed at no time of it, before or after |
| `Runs.NoRequestPaidTwice` | doge/src/commands/process_withdrawal.rs:970-1170 | of all transactions Electrs has accepted, no two pay the same request |
| `Runs.AcceptedIsLanded` | doge/src/commands/process_withdrawal.rs:1474-1494 | every transaction that Electrs has accepted belongs to a batch whose snapshot landed |
| `Runs.SpentOnlyIfAccepted` | doge/src/commands/process_withdrawal.rs:1507-1516 | custody is marked broadcast or consumed only when Electrs has the batch's transaction |
| `Runs.HeldOnce` | doge/src/commands/process_withdrawal.rs:585-616 | no UTXO is held by two reservations that have not been released |
| `Runs.SignedAlwaysContinues` | doge/src/commands/process_withdrawal.rs:984-998 | in every reachable state the graph of a signed batch loads, its bytes match their hashes, and it is complete or an interrupted transition that completes |
| `Runs.BroadcastAlwaysIntact` | doge/src/commands/process_withdrawal.rs:1243-1270 | in every reachable state a broadcast batch passes the drift checks |
| `Conservation.CustodyBalances` | doge/src/commands/process_withdrawal.rs:1283-1301 | in every reachable state, unspent custody plus all requests from the first cursor up to the last confirmed batch plus the fees of confirmed batches is what was deposited |
| `Conservation.ChangeIsNeverDust` | doge/src/lib.rs:206-233 | every reservation's UTXOs are worth what was selected, and selected beyond required is nothing or at least the dust threshold |
| `Procedures.CutShort` | doge/src/commands/process_withdrawal.rs:362-632 | a procedure whose writes are enabled in turn is a run of the machine, however many of its writes it gets to make |
| `Procedures.CutShortKeeps` | doge/src/commands/process_withdrawal.rs:362-632 | the invariants hold wherever such a procedure crashes |
| `Procedures.OutsideStepsIntervene` | doge/src/commands/process_withdrawal.rs:701-781 | a procedure in progress stays enabled whatever chain, users, Electrs or depositors do between its writes, unless a deposit is the very change output that it will track |
| `Procedures.ObservedActionIsRight` | doge/src/commands/process_withdrawal.rs:649-671 | with a truthful observation an observed batch is failed only when its snapshot can never land, waiting is never chosen, and a landed and visible one awaits confirmation |
| `Procedures.FailingPerforms` | doge/src/commands/process_withdrawal.rs:673-699 | the writes that fail a dead batch are enabled in turn, also when a crash had already released its custody |
| `Procedures.ConfirmingPerforms` | doge/src/commands/process_withdrawal.rs:840-874 | the cursor stands at the end of a landed batch, and the writes that confirm it are enabled in turn |
| `Procedures.PersistingPerforms` | doge/src/commands/process_withdrawal.rs:1068-1102 | persisting a signed transaction that fits the batch is enabled for every constructed batch |
| `ResumeRuns.ObservedOutcome` | doge/src/commands/process_withdrawal.rs:701-874 | with true answers an observed batch is failed only if its snapshot is dead and settled only if it landed |
| `ResumeRuns.SignedFits` | doge/src/commands/process_withdrawal.rs:1001-1102 | what the operator prepares and the Managers sign has one output per request, returns exactly what the reservation does not require, and passes the rule for signed bytes |
| `ResumeRuns.ConstructIsRun` | doge/src/commands/process_withdrawal.rs:1001-1114 | preparing, signing, persisting, submitting and marking is a run of the machine; what is prepared and signed is computed from the batch, only its hash must be new |
| `ResumeRuns.SignedIsRun` | doge/src/commands/process_withdrawal.rs:984-998 | continuing a signed batch, through submission or through an interrupted transition and finalization with the derived change, is a run |
| `ResumeRuns.LeadingReplays` | doge/src/commands/process_withdrawal.rs:701-781 | such a run leaves exactly what its durable writes leave |
| `ResumeRuns.ResumingIsRun` | doge/src/commands/process_withdrawal.rs:701-781 | if the snapshot's fate is observed truthfully and hash and change outpoint are new, a whole invocation over any incomplete batch is a run of the machine, signing and deriving the change included, so every invariant holds after it |
| `ResumeProgress.FavourableResumeFinishes` | doge/src/commands/process_withdrawal.rs:701-1303 | from any stage and after any crashes, one invocation brings the batch to broadcast, and one more finishes it, if the snapshot landed, the Managers' answer is right, Electrs accepts and shows the transaction, the reservation still affords the payload and has at most 1000 UTXOs, and change has one key reference; that preparing, signing and deriving succeed follows |
| `StartRuns.PayloadIsRequested` | doge/src/commands/process_withdrawal.rs:1558-1580 | a payload with one output per request is worth what the requests ask for |
| `StartRuns.OpeningBegins` | doge/src/commands/process_withdrawal.rs:397-616 | whatever a fresh invocation begins, the machine can begin: the reservation covers requests and fee, its rest is nothing or not dust, and the unsigned bytes pass the rule for new batches |
| `StartRuns.StartIsRun` | doge/src/commands/process_withdrawal.rs:362-632 | with a true opening and true answers a whole fresh invocation is a run of the machine, whatever becomes of its snapshot |
| `StartRuns.FavourableStartBroadcasts` | doge/src/commands/process_withdrawal.rs:362-632 | a fresh invocation whose snapshot lands, and that is answered favourably, brings its batch to broadcast |
| `StartRuns.MakingReplays` | doge/src/commands/process_withdrawal.rs:362-632 | such a run leaves exactly what its durable writes leave |
| `OperatorRules.SignedIsPlanned` | doge/src/commands/process_withdrawal.rs:1001-1102 | what was signed returns exactly what the reservation does not require, has the payload's outputs, and passes the rule for signed bytes |
| `OperatorRules.DerivedIsPlanned` | doge/src/commands/process_withdrawal.rs:1341-1445 | whatever the confirmed outputs are, a change that is derived from them has the planned outpoint and amount, the confirmed P2SH script and its address, and the key reference of every row of the reservation |
| `OperatorRules.PreparesAgain` | doge/src/commands/process_withdrawal.rs:1001-1019 | what was once prepared is recovered from its bytes whenever the reservation affords the payload under the present fee and dust threshold and has at most 1000 UTXOs |
| `OperatorRules.DerivingSucceeds` | doge/src/commands/process_withdrawal.rs:1341-1445 | the change of a signed transaction is derived from its confirmed outputs, if the spent UTXOs share a key reference |
| `OperatorRules.ShownIsSigned` | doge/src/commands/process_withdrawal.rs:1305-1339 | no two transactions have the same bytes, so the outputs that Electrs decodes are those that were signed |
| `Provenance.ReachableIsGenuine` | doge/src/commands/process_withdrawal.rs:362-1303 | in every reachable state each payload pays its batch's requests one by one, the unsigned bytes passed the rule for new batches, and from signing on the raw bytes passed the rule for signed ones and the identifier is theirs |
| `Provenance.RunKeepsColumns` | doge/src/commands/process_withdrawal.rs:362-1303 | over any run no batch changes but in its status, no reservation in what it is worth and holds, and no UTXO in its row |
| `Payouts.AcceptedPays` | doge/src/commands/process_withdrawal.rs:362-1303 | every transaction that Electrs has accepted belongs to one landed batch, pays that batch's requests exactly, in order and to their recipients, returns the rest to custody, and validly spends the batch's reserved UTXOs and nothing else |
| `Payouts.RecipientSpends` | doge/src/wormhole/tx.rs:33-39 | what pays a request to a key hash is spent by exactly the holders of a key that hashes to the request's recipient |
| `Payouts.SettledRequestIsPaid` | doge/src/commands/process_withdrawal.rs:362-1303 | every request from the first cursor up to the last confirmed batch has been paid its net amount to its recipient by one accepted transaction, and no other accepted transaction pays it |
| `BroadcastRuns.ContinuingPerforms` | doge/src/commands/process_withdrawal.rs:984-998 | continuing a signed batch is a run of the machine, interrupted before or not |
| `BroadcastRuns.SubmittedPerforms` | doge/src/commands/process_withdrawal.rs:1922-1944 | with true answers of Electrs before and after posting, continuing with whatever submission gave is a run: a batch is marked only if Electrs has its transaction |
| `BroadcastRuns.FinalizingPerforms` | doge/src/commands/process_withdrawal.rs:1235-1303 | finalizing a broadcast batch with a change that has the planned outpoint and amount, and is not tracked yet, is a run of the machine |
| `BroadcastRuns.RecordingPerforms` | doge/src/commands/process_withdrawal.rs:1582-1616 | recording the requests that the chain shows gets through exactly when all have a fee, and each write is a recording step |
| `Completion.FirstInvocation` | doge/src/commands/process_withdrawal.rs:362-632 | one fresh invocation, with the local service answering, brings that payment to broadcast |
| `Completion.BroadcastConfirms` | doge/src/commands/process_withdrawal.rs:1235-1303 | a reachable broadcast batch without change is confirmed by one more invocation once Electrs shows its transaction |
| `Completion.WithdrawalCompletes` | doge/src/commands/process_withdrawal.rs:362-1303 | from any empty store, a deposit into custody and a request for its value less the fee can be followed through to a confirmed payment with the local service as Managers, and Electrs has accepted a transaction that pays the request |
| `Vaa.ParseBytes` | doge/src/wormhole/manager.rs:226-259 | the offset-stepping parser computes `Parse` |
| `Vaa.SynthesizeLocal` | doge/src/wormhole/manager.rs:795-808 | the bytes by position and in numbers: version 1, zeros for guardian set, signature count, timestamp and nonce, emitter chain, address and sequence, level 0, payload |
| `Vaa.PrintedParses` | doge/src/wormhole/manager.rs:226-259 | a VAA with any number of guardian signatures parses to its header and payload, and its body is what follows the signatures |
| `Vaa.AcceptedIsPrinted` | doge/src/wormhole/manager.rs:226-259 | only byte strings of that layout are accepted |
| `Vaa.SynthesizedParses` | doge/src/wormhole/manager.rs:795-808 | a synthesized VAA parses back to its key and payload |
| `Vaa.ParseManagerSetBytes` | doge/src/wormhole/manager.rs:44-70 | the key-pushing loop computes `ParseManagerSet` |
| `Vaa.WriteManagerSet` | doge/src/wormhole/manager.rs:73-81 | the bytes by position: a zero, m, n, and the keys |
| `Vaa.ManagerSetRoundTrip` | doge/src/wormhole/manager.rs:44-81 | a Manager set survives serialization exactly when its count matches its keys |
| `Manager.LocalManagerService.Register` | doge/src/wormhole/manager.rs:587-608 | a call under a new key inserts exactly if it is grantable, and then what is granted; under a known key it repeats without effect exactly for the same payload and bytes; otherwise it fails without effect |
| `Manager.LocalManagerService.Get` | doge/src/wormhole/manager.rs:610-612 | after any calls: nothing exactly when no call under the key could be signed, and otherwise what the first such call was signed with |
| `Manager.GrantedExactly` | doge/src/wormhole/manager.rs:617-731 | a registration is granted an answer exactly if it is for Manager set 0 and Dogecoin, has outputs and inputs, its outputs are the payload's and at most one P2SH output more, and its bytes are those of that transaction; the answer is given in full: VAA, double hash of its body, numbers, and the signatures of the first five keys over the consensus preimages |
| `Manager.DifferingOutputsRefused` | doge/src/wormhole/manager.rs:655-681 | a registration with a differing output, more than one output beyond the payload's, or one that is not P2SH changes nothing, and under a new key it fails |
| `Manager.PassesIffProper` | doge/src/commands/process_withdrawal.rs:1795-1822 | a response passes exactly if the VAA's body, after the guardian signatures, is of chain 1, the emitter and sequence asked for and the payload's bytes, the hash is the double hash of that body, and chain, set and numbers agree |
| `Manager.EntriesAreFirst` | doge/src/wormhole/manager.rs:587-608 | over any sequence of calls a key has an entry exactly when some call under it could be signed, and the entry is payload and signatures of the first such call |
| `Manager.InsertedIffFirst` | doge/src/wormhole/manager.rs:587-608 | a call is answered with `Inserted` exactly when it is the first under its key that can be signed, so there is one per key |
| `Manager.WriteOnce` | doge/src/wormhole/manager.rs:587-608 | over any sequence of calls no entry changes or disappears |
| `Manager.Idempotent` | doge/src/wormhole/manager.rs:587-608 | a registration that succeeded can be repeated at any later time without effect |
| `Manager.EveryEntryIsGranted` | doge/src/wormhole/manager.rs:617-731 | over any sequence of calls every entry answers one of them with what is granted to it: its transaction has the payload's outputs first, unchanged, and at most one P2SH output besides, over the registered inputs and their custody scripts, with five signatures per input |
| `Manager.GrantedIsAccepted` | doge/src/wormhole/manager.rs:694-731 | what is granted pays the payload, and the operator accepts its signatures for its transaction |
| `Manager.ServiceServesOperator` | doge/src/wormhole/manager.rs:617-731 | the service signs whatever the operator prepares under the same keys, its response passes the operator's checks, and its signatures are accepted |
| `Manager.PreparedSignedSpends` | doge/src/commands/process_withdrawal.rs:1001-1069 | whatever the operator prepares, if the service signs its registration, the response passes the operator's checks and its signatures are accepted; applied, they give a transaction with the prepared outputs that spends every reserved UTXO at its stored address and script |
| `Decimal.ParseScientificText` | doge/src/lib.rs:78-114 | the byte loop over the mantissa computes `ParseScientific` |
| `Decimal.PlainIsExact` | doge/src/lib.rs:28-76 | the plain form accepts exactly the unsigned decimals with a whole part and at most eight fractional digits whose value fits, and returns exactly 10^8 times that value |
| `Decimal.ScientificIsExact` | doge/src/lib.rs:78-114 | the scientific form accepts exactly the texts that denote a whole number of satoshis that fits, except a zero mantissa whose power of ten alone does not fit; the result is exact |
| `Decimal.PlainAgreesWithScientific` | doge/src/lib.rs:28-114 | without an exponent marker, appending "e0" changes neither success nor result, unless the text starts with the point and the scientific form accepts it |
| `Decimal.LeadingPointDiffers` | doge/src/lib.rs:28-114 | that exception is real: ".5" is refused, ".5e0" is not |
| `Commitment.SpentCommitmentPreimage` | doge/src/lib.rs:358-386 | the bytes by position and in numbers: the domain's letters, the old root, the count, and each outpoint once, by strictly ascending leaf index, as leaf index, txid and output number |
| `Commitment.AcceptedIffDistinct` | doge/src/lib.rs:358-375 | a call is accepted exactly when it has outpoints, all with different leaf indices |
| `Commitment.OrderIsIrrelevant` | doge/src/lib.rs:358-386 | reordering the outpoints changes neither acceptance nor the bytes that are hashed |
| `Commitment.SameIffSameSet` | doge/src/lib.rs:358-386 | two accepted calls hash the same bytes exactly when they have the same old root and the same outpoints |
| `Daemon.PollFailureTracker.RecordFailure` | doge/src/commands/operator_daemon.rs:259-265 | the saturating counter reports exactly when the failures at the end of the history reach the threshold |
| `Daemon.RunPolls` | doge/src/commands/operator_daemon.rs:201-228 | the loop stops at the first poll that completes a run of failures, and otherwise polls on |
| `Daemon.AbortsIffRun` | doge/src/commands/operator_daemon.rs:259-270 | that is: the last `threshold` polls all failed |
| `Daemon.RunDaemon` | doge/src/commands/operator_daemon.rs:201-228 | with the daemon's threshold: it aborts right after the first five polls in a row that failed, and otherwise never |

## Left out

- HTTP, Solana RPC, Electrs and SQLite plumbing, timeouts, evidence files, key files and command-line handling: only their results appear, as parameters or as steps.
- `SnapshotWithdrawalProof`, on-chain programs, generic buffers, Wormhole guardians and the combined-index encoder: external code.
- Interleavings of the separate reads while an observed batch is resumed, and two operators at once.
- Error texts, and which of several failing checks is reported.
- Snapshot roots, messages, slots and the persisted Solana transaction of a batch: agreement with them is one boolean parameter. The stored payload appears parsed, and its hash column is not modelled; `Utx0.ParseIffSerialized` says that bytes and payload determine each other.
- Completeness polling of remote Manager services: the response that polling ends with is a parameter.
- `plan_confirmed_withdrawal`, `validate_decoded_custody_transaction`, deposit building, proof-artifact sizes and network profiles: single checks with little state.
- Base58, base64, hex and JSON: values appear decoded, a stored script text as the bytes it encodes, and VAA identifier texts not at all.
- Script opcodes that neither custody spending nor payments to key hashes use, signature-operation counts and FindAndDelete: the evaluator fails on any other opcode.
- Sighash types other than SIGHASH_ALL as a statement about Dogecoin consensus: the two SINGLE branches follow the code, not the legacy rules, and nothing else calls them. Their stability under `apply_script_sig` is proved.
- The fixed key material of the Manager sets: the seven local public keys and the signing function are parameters.
- Concurrent growth of 64-bit counters past their range: batches are begun only below 2^64 requests. `usize` is taken to be 64 bits wide.
- Redeem.AppendInt: the least 64-bit integer follows wrap-around negation, the arithmetic of release builds; a build with overflow checks stops instead. No caller passes it, and `Redeem.PushIntDecodes` states that it does not decode back.
- Decimal.ScientificIsExact: for texts of at most 2^31 - 16 characters; the 32-bit counters of longer ones could wrap. Surrounding white space is trimmed before the modelled part.
- Transaction.PushDataInline: the source describes its push as that of the Go implementation's script builder, which writes one-byte data 1 to 16 as opcodes; the code always writes a push of the bytes, and so does the model.
- Conservation.CustodyBalances: deposits enter as one step that adds an available UTXO; how deposits are recognized is not modelled.
- Payouts.AcceptedPays: validity of spending is P2SH script evaluation over the stored output; that the stored output is the one on chain is what recognizing deposits establishes.
- Procedures.OutsideStepsIntervene: a deposit of the very change outpoint that the procedure is about to track is excluded, since the store would then track one output twice.
- Runs.FailedNeverLands: rests on the single truthful observation named above, not on the order of the separate reads.
- Manager.PreparedSignedSpends: for the local Manager set, whose secrets the service holds; for remote Managers `Prepare.PreparedSpends` applies to whatever accepted signatures they return.
