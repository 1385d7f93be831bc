# BuenzliCoin: ledger and consensus core

This project models the part of BuenzliCoin that decides what the ledger is: validation of
transactions against a snapshot of the unspent outputs, the in-place update of those outputs, the
pool of unconfirmed transactions, the hash-linked chain, the node handlers that keep the three
together, the difficulty adjuster, digests, the wallet's coin selection, and a network of nodes
exchanging blocks and chains. `dafny verify dfyconfig.toml` checks the whole project.

| file | models |
|---|---|
| Options.dfy | optional values, and operations that return or throw |
| Digests.dfy | leading zero bits and hexadecimal text of digests |
| Difficulty.dfy | the difficulty adjuster, the miner's target and the receiver's test |
| Records.dfy | transactions, blocks, serialized records, hash pre-images, configuration |
| Validity.dfy | validation of transactions and transaction lists |
| Unspent.dfy | the list of unspent outputs and its erase-then-advance loops |
| Ledger.dfy | the unspent outputs as replay of a chain: unique keys, no double spending, supply |
| Pools.dfy | the unconfirmed pool |
| Blocks.dfy | blocks and chains: mining, appending, validating, comparing, rebuilding |
| Nodes.dfy | the node object and its handlers as steps of a state machine |
| Runs.dfy | what every run of a node keeps, whatever the messages, and progress |
| Soundness.dfy | soundness, supply, unique keys and the pool over every run, with exact conditions |
| Consensus.dfy | acceptance by peers, replication, catching up, and a network coming to rest |
| Wallets.dfy | coin selection and the node's view of the transaction it builds |
| Settlement.dfy | a transfer from wallet to wallet, end to end |
| Scenarios.dfy | building blocks for concrete runs in any configuration with a working key pair |
| Witnesses.dfy | concrete runs in which the properties that need a condition fail without it |

Classes (`UnspentOutputs`, `UnconfirmedPool`, `DifficultyAdjuster`, `Blockchain`, `Node`) carry the
state that the program changes in place. Each method equates the new state with a function of the
old one, loops included; the theorems are then about those functions, over all runs.

## How the program is read

- SHA-256, signature verification and the JSON printer are function values in the configuration.
  Nothing is assumed about them except where a statement says so. The tip theorem concludes "or the
  two chains exhibit a hash collision"; the ledger theorems assume that no two transactions of the
  chain at hand have equal hashes but different contents (`CollisionFree`). A global injectivity
  assumption would be inconsistent, because the hashed texts do not separate their parts
  (`TxPreimageAmbiguous`, `TimeAndNonceAmbiguous`).
- Sums of amounts are taken modulo 2^64, as `size_t` does. The supply theorem is therefore an
  identity with a wrap-around term, and exact conservation after every block is proved to hold if
  and only if no transaction's output sum reaches 2^64.
- `CleanStep` lists what validation does not check about messages: received standard transactions
  have inputs, all different, and outputs, and the transactions of one received block share no
  input. For mined blocks the same facts are derived from `add`.
- Witness runs are for any configuration without proof of work whose key pair works and in which the few
  transactions of the run have different hashes; `PlainMeetsAll` names one.
- `synced` and `clock` are history variables. A block that is ahead of the chain updates cache and
  pool without being appended; it clears `synced`, and chain replacement sets it again.
- A handler is one atomic step with one clock reading; the nonce search takes one reading per
  attempt. Readings never decrease.
- One model covers the text build and the transactions build (a block payload is one or the other)
  and the builds with and without proof of work (a configuration flag).
- The erasing loops of `update`, `remove` and `prune` are modelled literally: the element after an
  erased one is skipped. Advancing the iterator past the end, and reading on in an erased
  transaction, is undefined behaviour; the model reports it and ends the loop there. `ScanExact`,
  `RemoveExact` and `PruneExact` say exactly when such a loop does what it is meant to do.
- `CleanRun` asks `CleanStep` only of messages that are admitted into the chain or the pool (`Admits`).
  Each of its conjuncts is needed: see `DoubleInputAccepted`, `NoInputsAccepted`, `NoOutputsOverruns`
  and `SharedInputAccepted`.
- Mining does not test whether the inputs in its pool are still unspent. `MinesSpent` is the test it
  lacks, and `Guarded` says that whenever it would have failed the chain has been replaced since.
  `ClearState` is a state of a clean run that is synced and free of hash collisions; `SoundState` is
  in addition guarded. Only soundness of the chain, and the supply without a third term, need the
  guard: unique keys, no return, the pool, acceptance, settlement and the erasing loops do not.

## What turned out to be false, and when it holds

- Pruning does not remove every transaction with a spent input: of two neighbours it skips the
  second (`PruneSkipsNeighbour`). It is the filter it is meant to be, with nothing undefined, exactly
  under the condition of `PruneExact`. Over every run, whatever the messages, no synced state has a
  spent input in its pool if and only if no block appended while synced left two stale neighbours
  (`RunPoolExactly`; `StaleMeansConflict` says what stale means for a block).
- Chains of runs are not always sound. In a synced, collision-free state of a run with clean messages
  every block is valid against the replay before it if and only if nothing spent was mined since the
  chain was last replaced (`RunSoundExactly`). A stale transaction that is never mined does no harm.
  Where it is mined, keys stay unique and spent outputs stay spent, and the supply grows by exactly what
  was spent again (`RunSupply`).
  In `PruningDoubleSpends` a node mines the transaction that pruning skipped: the output is spent
  twice, the block adds twice its reward to the supply, and a peer in step rejects it.
- A peer in step does not accept every mined block, but exactly those mined from a pool of unspent
  inputs that meet its difficulty (`HonestAcceptance`), and a follower stays in step exactly as long as
  the leader mines nothing spent (`Replication`).
- A spent output can return. Steps that do not replace the chain only extend it (`StepExtends`), and
  along them nothing returns (`RunNoReturn`); after a replacement a key is unspent exactly when the
  received chain carries the reward it names (`ReplacementReturnsExactly`). `SpentRewardReturns` is a
  run in which a spent reward comes back.
- The supply is not always one reward per block. In sound states, as long as the rewards fit into a
  size_t, it is so after every block if and only if no output sum reaches 2^64 (`SupplyExactlyWhen`,
  `RunSupply`); in every clear state it is given by an identity with a term for wrap-arounds and one
  for what was spent again.
  `SupplyBroken` is a run that ends with 2^64 coins too many.
- A serialized chain is not always accepted back: received chains carry no unspent outputs, so a
  valid chain is accepted exactly when none of its standard transactions has an input and, with proof
  of work, every block passes the receiver's difficulty test (`ChainRoundTrip`, `CatchUpExactly`). In
  `TransferChainRefused` an empty node refuses the chain of a run that settled one transfer.
- Cache and chain disagree after a block that is ahead, exactly when that block carries transactions
  (`AheadBlockAgreesExactly`; at an input: `AheadBlockDesyncs`).
- Mining fails, and still drains the pool, exactly when the pool holds a transaction that is not a
  standard transaction for the next block or the nonce search does not end
  (`MiningSucceedsExactly`). `add` takes a reward transaction, which then stops mining
  (`PostedRewardStopsMining`).
- The receiver's difficulty test is stricter than the miner's target unless the difficulty is a power
  of two (`MinerReceiverAgree`); at difficulty 3 one zero bit separates them
  (`MinerReceiverDisagree`).

## Model

| member | source | states |
|---|---|---|
| Digests.ZeroPrefixIsMagnitude | include/crypto/digest.h:36-53 | at least k leading zero bits exactly when the big-endian value is below 2^(8*length-k), for every digest and k |
| Digests.CountZeroPrefix | include/crypto/digest.h:36-53 | the nested bit loop computes that count |
| Digests.PrintParse | include/crypto/digest.h:55-89 | parsing the printed digest gives the digest back |
| Digests.ParsePrint | include/crypto/digest.h:55-89 | printing a parsed even-length hexadecimal string of either case gives its lower-case form |
| Digests.ParseFailsExactly | include/crypto/digest.h:67-89 | the parser throws exactly on a non-hexadecimal character inside a complete pair |
| Digests.PrintIsNumber | include/crypto/digest.h:55-65 | the printed digest, read in base 16, is its big-endian value |
| Digests.Print | include/crypto/digest.h:55-65 | the printing loop yields the text of the round-trip results |
| Digests.Parse | include/crypto/digest.h:67-89 | the parsing loop yields the digest, or the error, of the round-trip results |
| Difficulty.DifficultyAdjuster.Adjust | include/difficulty.h:24-58 | the in-place adjustment, tied to the function whose runs are bounded below |
| Difficulty.AdjustsExactly | include/difficulty.h:30-57 | every call, without division: new difficulty times elapsed time is old difficulty times expected time inside the limit; at or beyond it, and at zero elapsed time, the difficulty is multiplied by the limit, for late or backward times divided by it; other calls keep it |
| Difficulty.AdjustsInDirection | include/difficulty.h:42-51 | faster blocks never lower the difficulty, slower ones never raise it, and later never means harder |
| Difficulty.AfterAdjusts | include/difficulty.h:30-57 | in a run an adjusting call looks back exactly adjust_after calls and adds the difficulty it sets |
| Difficulty.DifficultyBounds | include/difficulty.h:24-58 | after c calls exactly (c-1)/adjust_after adjustments; difficulty within init/limit^n and init*limit^n; cumulative difficulty is the sum of the adjusted values; any timestamps |
| Difficulty.RoundsClosedForm | include/difficulty.h:33-57 | which calls adjust, and when the last one did |
| Difficulty.AdjusterTracks | include/difficulty.h:30-57 | counter, reference timestamp and cumulative difficulty of every run |
| Difficulty.PerfectTiming | test/unit/difficulty_test.cc:36-46 | perfect timing keeps the initial difficulty forever |
| Difficulty.CumulativeMonotone | include/difficulty.h:46-54 | cumulative difficulty never decreases and difficulty stays positive |
| Difficulty.MinerReceiverGap | include/blockchain.h:92-111 | the receiver's test implies the miner's target, and the target holds exactly when 2^(zeros+1) exceeds the difficulty |
| Difficulty.MinerReceiverAgree | include/blockchain.h:343-344 | the two tests agree on all digests exactly when the difficulty is a power of two |
| Difficulty.MinerReceiverDisagree | include/blockchain.h:343-344 | at difficulty 3 one leading zero bit satisfies the miner and not the receiver |
| Records.TxRoundTrip | src/transaction.cc:104-161 | a transaction survives serialization, without its snapshot |
| Records.BlockRoundTrip | include/blockchain.h:114-152 | a block survives serialization, without the snapshots of its transactions |
| Records.RelinkInvisible | src/transaction.cc:104-132 | snapshots are neither serialized nor hashed |
| Records.BlockToJsonInjective | include/blockchain.h:114-129 | the serialized record determines the block up to snapshots |
| Records.TxPreimageAmbiguous | src/transaction.cc:238-253 | two different reward transactions that hash the same text |
| Records.DigitsRead | src/transaction.cc:238-250 | numbers are printed in base 10 without leading zeros |
| Records.OutputCovered | src/transaction.cc:248-250 | changing the amount or the address of any one output changes the hashed text |
| Records.InputCovered | src/transaction.cc:244-246 | changing the hash or the position of the output that any one input names changes the hashed text |
| Records.IndexCovered | src/transaction.cc:242 | changing the index changes the hashed text |
| Records.BlockCovered | include/blockchain.h:169-182 | changing timestamp, nonce, index or previous hash of a block changes the hashed text |
| Records.TxFields | src/transaction.cc:104-132 | which field of a transaction goes where in its record |
| Records.UnknownTypeFails | src/transaction.cc:139-146 | any other transaction type throws |
| Records.BlockFields | include/blockchain.h:114-129 | which field of a block goes where in its record |
| Validity.Lookup | src/transaction.cc:177-186 | the lookup loop finds the address of the last match and adds all matching amounts modulo 2^64 |
| Validity.ValidStandard | src/transaction.cc:167-211 | valid exactly when hash, every input's unspent output and signature, and the sums are right; otherwise the first failing input |
| Validity.StandardSigned | src/transaction.cc:177-200 | a valid standard transaction carries the hash of its content, and each input names an unspent output whose address verifies the input's signature of that hash |
| Validity.SignedIsStandard | src/transaction.cc:167-211 | right hash, signed inputs and agreeing sums are enough |
| Validity.ValidReward | src/transaction.cc:217-232 | valid exactly when hash, inputs, output count and amount are right |
| Validity.ValidList | src/transaction.cc:259-280 | valid exactly when the size, kinds, index and every transaction are right; otherwise the first bad entry |
| Validity.StandardOkSameMatches | src/transaction.cc:174-208 | validity depends on the snapshot only through the keys the transaction spends |
| Unspent.ScanExact | src/transaction.cc:324-330 | the erase-then-advance loop equals the filter and stays inside the list exactly when no neighbours match and the last element does not |
| Unspent.ScanFilters | src/transaction.cc:324-330 | the result alone equals the filter exactly when no neighbours match |
| Unspent.OverrunsExactly | src/transaction.cc:324-330 | without matching neighbours the loop leaves the list exactly when the last element matches |
| Unspent.EraseLoop | src/transaction.cc:324-330 | the literal loop and its overrun |
| Unspent.UnspentOutputs.Update | src/transaction.cc:314-332 | the in-place update, and whether it overran |
| Unspent.UpdateRefines | src/transaction.cc:314-332 | with unique keys and a new hash: append the outputs, delete exactly the spent keys, keep keys unique |
| Unspent.UpdateMatches | src/transaction.cc:314-332 | lookup after the update for every key |
| Unspent.UpdateStaysInside | src/transaction.cc:323-331 | the loops never advance past the end if there is an output and no input names an own output |
| Unspent.UpdateTotal | src/transaction.cc:314-332 | one update conserves money: total after plus inputs equals total before plus outputs |
| Unspent.UniqueKeysMeaning | include/transaction.h:53-57 | uniqueness by lookup is uniqueness by position |
| Ledger.BlockKeys | src/node.cc:496-497 | for unique keys and new hashes, a key that a block does not create is gone or unchanged after it, and keys stay unique |
| Ledger.BlockApplies | src/node.cc:496-497 | applying a block, whether or not its inputs are unspent: keys stay unique, spent keys are gone, untouched keys unchanged, money conserved |
| Ledger.BlockCreates | src/node.cc:496-497 | every output a block creates is unspent after it |
| Ledger.LedgerInvHolds | src/node.cc:145-157 | along every chain whose transactions carry their block's index, are clean and do not collide, keys are unique and come from transactions of the chain |
| Ledger.SpentStaysSpent | src/transaction.cc:236-253 | on every such chain, sound or not, an output that existed and is spent never becomes unspent again |
| Ledger.SpendingIsFinal | src/transaction.cc:259-280 | what a block spends was unspent exactly once before it and is spent to the end of the chain |
| Ledger.NoDoubleSpending | src/transaction.cc:188-189 | two different transactions of a sound chain spend different outputs |
| Ledger.SupplyIdentity | src/transaction.cc:167-232 | unspent total = reward times rewarded blocks + 2^64 times the wrap-arounds + what was spent again |
| Ledger.Supply | src/transaction.cc:167-232 | on sound chains nothing is spent again |
| Ledger.OfferedApplicable | src/node.cc:437-497 | a block for this or a later position that is valid against the replay of a chain with unique keys of known origin can be applied to it: unspent inputs, new hashes |
| Ledger.ReplayOfRewards | src/transaction.cc:314-332 | on a chain that only pays rewards a key is unspent exactly when the chain carries the reward it names |
| Ledger.SupplyExactlyWhen | src/transaction.cc:204-208 | while the rewards fit into a size_t, the total after every block is exactly the rewards if and only if no output sum reaches 2^64 |
| Ledger.SupplyConserved | src/transaction.cc:202-208 | exact conservation as long as no output sum and no total of rewards reaches 2^64 |
| Ledger.WrapAroundAccepted | src/transaction.cc:172-208 | a concrete transaction whose size_t output sum wraps and that validates |
| Pools.UnconfirmedPool.Add | src/transaction.cc:364-386 | adds, or throws and leaves the pool, by size, validity and shared inputs |
| Pools.UnconfirmedPool.Next | src/transaction.cc:351-358 | takes the oldest transaction out |
| Pools.UnconfirmedPool.Remove | src/transaction.cc:392-398 | the literal erasing loop by hash, and whether it overran |
| Pools.UnconfirmedPool.Prune | src/transaction.cc:404-421 | the literal loop that erases at the first spent input and skips the neighbour, and whether anything undefined happened |
| Pools.PruneLoop | src/transaction.cc:404-421 | the outer loop, position by position |
| Pools.FirstSpent | src/transaction.cc:408-415 | the inner loops find the first spent input, and whether another input follows it |
| Pools.PruneExact | src/transaction.cc:404-421 | pruning equals the filter and nothing is undefined exactly when no neighbours are stale, the last transaction is not, and stale transactions are stale at their last input only |
| Pools.PruneFiltersExactly | src/transaction.cc:417-419 | the result alone equals the filter exactly when no two neighbours are stale |
| Pools.PrunedUnspentExactly | src/transaction.cc:417-419 | no spent input is left in the pool exactly when no two neighbours are stale |
| Pools.PruneSkipsNeighbour | src/transaction.cc:417-419 | of two stale transactions the second stays in the pool |
| Pools.StaleMeansConflict | src/transaction.cc:404-421 | a linked transaction is stale after a block exactly when it spends what the block spends |
| Pools.RemoveExact | src/transaction.cc:394-397 | when the literal loop of remove is the filter it is meant to be |
| Pools.RemovedExactly | src/node.cc:501-502 | removing the transactions of a block, when pooled hashes differ: exactly those with one of their hashes are gone, the others stay in order |
| Pools.AddedExactly | src/transaction.cc:364-386 | adding succeeds exactly when there is room, the transaction is valid and no pooled input names the same output |
| Pools.AddedKeeps | src/transaction.cc:364-386 | adding keeps the pool bounded, valid and free of shared inputs |
| Pools.AddedLinked | src/node.cc:324-332 | an added transaction is linked with the unspent outputs of that moment |
| Pools.SurvivorKept | src/transaction.cc:404-421 | an output that survives a block is the output it was before |
| Pools.PrunedLinkedExactly | src/node.cc:212-214 | after a block and pruning, snapshots still agree with the unspent outputs on every pooled input if and only if no two neighbours were stale |
| Blocks.ValidBlock | include/blockchain.h:66-80 | valid exactly when data, timestamp limit and hash are right |
| Blocks.Blockchain.Check | include/blockchain.h:244-269 | valid exactly when non-empty, every block valid, genesis first, successors after |
| Blocks.EarlyBlockInvalid | include/blockchain.h:85-90 | a block dated too far before the one it follows makes a chain invalid |
| Blocks.BadBlockInvalid | include/blockchain.h:66-80 | so does a block dated too far ahead, with a wrong hash or with too many transactions |
| Blocks.SearchNonce | include/blockchain.h:96-111 | the nonce loop; what it returns meets the target and hashes right |
| Blocks.SearchFinds | include/blockchain.h:96-111 | a finished search changes only timestamp, nonce and hash |
| Blocks.SearchIsFirst | include/blockchain.h:96-111 | the search stops at the first attempt that meets the target, and fails only if none does |
| Blocks.TargetMeans | include/blockchain.h:94 | the target is the largest number of bits whose power of two does not exceed the difficulty |
| Blocks.Blockchain.ConstructNextBlock | include/blockchain.h:296-319 | builds, checks, adjusts, mines and appends, or throws |
| Blocks.ConstructedFrom | include/blockchain.h:296-319 | what a mined block is built from, and that the adjuster has advanced with the time before the search |
| Blocks.Blockchain.AppendNextBlock | include/blockchain.h:321-348 | checks, adjusts and appends, or throws with the adjuster already advanced |
| Blocks.AppendedExactly | include/blockchain.h:321-348 | appending succeeds exactly when the block follows the last one, is valid and meets the advanced difficulty; a block rejected for its difficulty leaves the adjuster advanced |
| Blocks.Blockchain.Assign | include/blockchain.h:209-217 | moves blocks and adjuster over |
| Blocks.ParseChain | include/blockchain.h:362-370 | rebuilds a chain block by block, or throws |
| Blocks.AdjusterReplays | include/blockchain.h:341-347 | a chain built by successful appends carries the adjuster of its timestamps |
| Blocks.IndexIsPosition | include/blockchain.h:85-90 | in a valid chain every index is the position |
| Blocks.TipFixesHistory | include/blockchain.h:169-182 | equal length and tip hash of valid chains force equal hashes, data and timestamp-and-nonce digits everywhere, or a hash collision |
| Blocks.TimeAndNonceAmbiguous | include/blockchain.h:173-176 | timestamp and nonce alone are not fixed by the hash |
| Blocks.UnlinkedBlockOk | include/blockchain.h:131-152 | a valid block parsed back is valid exactly when it spends nothing |
| Blocks.ChainRoundTrip | include/blockchain.h:350-370 | a valid chain is rebuilt from its serialized form exactly when it spends nothing and, with proof of work, every block passes the receiver's difficulty test; it then equals the original without snapshots |
| Blocks.UnlinkedChainOk | include/blockchain.h:244-269 | the rebuilt chain is valid and serializes the same |
| Nodes.Rebuild | src/node.cc:145-152 | clearing the cache and updating it transaction by transaction yields the replay of the chain |
| Nodes.Node.BlockchainSetup | src/node.cc:145-157 | cache becomes the replay of the chain, pool becomes empty |
| Nodes.Node.HandleBlocksPost | src/node.cc:179-239 | drains the pool, mines, updates cache and pool, or throws with the pool drained |
| Nodes.Node.HandleBlocksPostText | src/node.cc:216-222 | mines a text block |
| Nodes.Node.HandleTransaction | src/node.cc:319-346 | links and adds a transaction, or leaves the pool |
| Nodes.Node.HandleReceiveLatestBlock | src/node.cc:402-509 | every branch of taking a block, including the fall-through for blocks that are ahead |
| Nodes.Node.HandleReceiveAllBlocks | src/node.cc:511-550 | replaces the chain exactly when the received one parses, is valid and is better |
| Runs.NewBlockSucceeds | include/blockchain.h:85-90 | the timestamp limit on the tip makes the next mined block a valid successor |
| Runs.RunKeepsBase | src/node.cc:179-239 | invariant of every run: chain valid, difficulty positive, pool bounded and validated, cache in agreement while synced |
| Runs.RunChainsValid | include/blockchain.h:244-269 | every non-empty chain of every run is valid now and at all later times |
| Runs.RunCacheAgrees | src/node.cc:209-214 | in every synced state the unspent outputs are the replay of the chain |
| Runs.HeavierChainWins | include/blockchain.h:219-228 | a valid received chain is taken over exactly when the difficulties set along its timestamps add up to more than the own cumulative difficulty, truncated, whatever the lengths; without proof of work when it is longer |
| Runs.TakesBlockExactly | src/node.cc:402-509 | what a node does with a received block, case by case, by validity, index, origin, previous hash, timestamp and difficulty |
| Runs.BadMessagesRefused | src/node.cc:402-550 | messages that do not parse, and chains that are not valid, throw and change nothing |
| Runs.OtherPartsKept | src/node.cc:319-346 | posting changes only the pool, mining a text block only the chain |
| Runs.LongBlockRefused | src/transaction.cc:261-262 | a block with too many transactions is refused |
| Soundness.ReplacementRestores | src/node.cc:541-547 | replacement by a clean chain restores everything clean runs keep, and a sound chain, from any state at all |
| Runs.StepExtends | src/node.cc:402-509 | every step that does not replace the chain keeps it as a prefix |
| Runs.RunExtends | src/node.cc:402-509 | the same along whole runs |
| Soundness.ReplacementReturnsExactly | src/node.cc:541-547 | after a replacement a key is unspent exactly when the received chain carries the reward it names |
| Runs.StepProgress | include/blockchain.h:219-228 | no step falls behind by length or cumulative difficulty; replacement is strictly ahead despite truncation |
| Runs.RunProgress | include/blockchain.h:272-277 | the same along whole runs |
| Soundness.StaleSnapshotSound | include/transaction.h:97-98 | a transaction valid against an old snapshot is valid against unspent outputs that agree on what it spends |
| Soundness.AssembledCurrent | src/node.cc:192-205 | a list validated with old snapshots is valid against the current unspent outputs |
| Soundness.TracedSnoc | src/transaction.cc:404-421 | whatever a further block of an orderly chain does, each key a pooled transaction spends is spent for good or still what its snapshot holds |
| Soundness.AppendKeepsTraces | src/node.cc:463-509 | appending a clean received block keeps chain and pool traced, whatever pruning leaves of the pool |
| Soundness.AppendKeepsLinks | src/node.cc:463-509 | appending a received block keeps a chain that is valid against its own replay so |
| Soundness.AppendPrunesExactly | src/node.cc:496-509 | after an appended block no pooled input is spent if and only if no two neighbours were stale |
| Soundness.AppendedPool | src/node.cc:501-504 | an appended block's transactions are taken out of the pool, the others stay in order, and pruning goes over those |
| Soundness.MiningSpentUnlinks | src/node.cc:192-214 | a successful mining attempt with a spent input in the pool makes the chain invalid against its own replay |
| Soundness.NextKeepsLedger | src/node.cc:402-509 | every handler keeps chain and pool clean and, in clear states, traced, if admitted messages are clean, whatever is mined |
| Soundness.StepKeepsLinked | src/node.cc:402-509 | every handler keeps a chain that is valid against its own replay so, unless it mines a spent input |
| Soundness.RunKeepsLedger | src/node.cc:402-509 | the first of the two along every clean run |
| Soundness.ClearIsOrderly | include/blockchain.h:244-269 | the chain of a clear state has unique keys of known origin, and its replay is the cache |
| Soundness.RunSoundExactly | src/node.cc:192-205 | in synced, collision-free states of runs with clean messages, every block is valid against the replay before it if and only if nothing spent was mined since the chain was last replaced |
| Soundness.RunSound | include/blockchain.h:307-310 | in sound states every block is valid against the replay before it and the cache is the replay |
| Soundness.RunSigned | src/transaction.cc:188-200 | in every clear state, each input in the chain spends an output of an earlier transaction with a signature, of the hash of the spending transaction's content, that the address of that output verifies |
| Soundness.ForgeryRefused | src/transaction.cc:194-195 | posting a transaction with an input nobody owns, or whose signature its owner's address does not verify, throws and changes nothing |
| Soundness.TracedPayable | src/transaction.cc:202-208 | every block of a valid traced chain can be applied, and its sums agree with what its snapshots held |
| Soundness.RunSupply | src/node.cc:192-214 | supply in every clear state: rewards plus wrap-arounds plus what was spent again; in sound states nothing was, and the total is exactly the rewards after every block if and only if no output sum reaches 2^64 |
| Soundness.RunUniqueKeys | src/transaction.cc:320-321 | each key is unspent at most once in every clear state, whatever was mined |
| Soundness.RunNoReturn | src/transaction.cc:314-332 | what the chain of an earlier state created and spent is spent in every later clear state, unless a step in between replaces the chain |
| Soundness.RunPool | src/transaction.cc:366-383 | pool bounded and inputs disjoint in every clean run; in clear states a pooled transaction is valid against the current unspent outputs exactly when its inputs are unspent |
| Soundness.RunPoolExactly | src/transaction.cc:404-421 | over every run, whatever the messages, no synced state has a spent input in its pool if and only if no block appended while synced left two stale neighbours |
| Soundness.PrunedIsSound | src/node.cc:496-509 | where pruning never skips a stale neighbour, clear states of clean runs are sound and their pools unspent |
| Soundness.RunStaysInside | src/transaction.cc:323-331 | no update in the replay of a clear state's chain advances past the end of the list, even where it spends what is spent |
| Soundness.RunBlockStaysInside | src/node.cc:496-497 | nor does, in clear states, any update with a received valid block, whether it is appended or ahead of the chain |
| Soundness.MiningSucceedsExactly | src/node.cc:192-205 | mining succeeds exactly when every pooled transaction is standard and for the next block and, with proof of work, the nonce search ends |
| Soundness.RunMiningSucceedsExactly | src/node.cc:192-205 | the same in every state of every run, whatever the messages |
| Soundness.RunMiningDrains | src/node.cc:192-205 | every mining attempt of every run, of any build and with or without success, leaves the pool empty and assembles at most one reward and the pool |
| Soundness.AheadBlockAgreesExactly | src/node.cc:437-461 | in every clear state, the fall-through for a valid block that is ahead keeps cache and chain in agreement exactly when the block carries no transaction |
| Soundness.ParsedChainLinked | src/node.cc:518-528 | a chain accepted for replacement is valid against its own replay |
| Consensus.HonestAcceptance | src/node.cc:402-509 | a peer in step, within the timestamp limit, accepts the block mined in a clear state exactly when no input in the miner's pool was spent and the block meets the peer's difficulty, and then ends in step |
| Consensus.StaleMineRejected | src/node.cc:427-435 | a block mined with a spent input is rejected by every node with the miner's unspent outputs |
| Consensus.SpentRejected | src/node.cc:427-435 | no node takes a block that spends what the node knows to be spent |
| Consensus.MinedMeetsDifficulty | include/blockchain.h:312-316 | with proof of work a mined block is accepted between adjustments when the difficulty is a power of two |
| Consensus.Replication | src/node.cc:589-610 | over every clean run a follower that gets the leader's mined blocks and messages has the leader's serialized chain and unspent outputs after every step if and only if the leader never mines a spent input; with proof of work, as long as the two judge alike what each step brings |
| Consensus.JudgeAlike | src/node.cc:402-550 | without proof of work nodes in step always judge alike |
| Consensus.CatchUpExactly | src/node.cc:511-550 | a node accepts a valid chain exactly when it spends nothing and passes the difficulty tests, and takes it over, with its replay, exactly when it is better |
| Consensus.RunCatchUp | src/node.cc:389-400 | the same for the chain of any synced state of any run: the follower ends in step |
| Consensus.DeliveryLength | src/node.cc:437-479 | a delivery changes a chain only by lengthening it, never beyond what the message says |
| Consensus.HistoryWithin | src/node.cc:589-598 | no message speaks of a chain longer than the longest one held |
| Consensus.Quiescence | src/node.cc:541-547 | once mining stops, appends and replacements are at most the sum of the nodes' length deficits, for any order, repetition or loss |
| Wallets.WalletUnspentOutputs | bwallet/bwallet.go:170-180 | the filter loop keeps exactly the owner's outputs |
| Wallets.OwnedExactly | bwallet/bwallet.go:170-180 | an entry is kept exactly when it is unspent and has the owner's address |
| Wallets.WalletBalance | bwallet/bwallet.go:296-305 | the balance is the sum of the owner's outputs |
| Wallets.SelectCoins | bwallet/bwallet.go:351-372 | the loop selects the shortest sufficient prefix, or finds the balance too small |
| Wallets.HashText | bwallet/bwallet.go:383-395 | the wallet hashes the same text as the node |
| Wallets.WalletTransfer | bwallet/bwallet.go:344-421 | builds a transaction exactly when the balance covers the amount: index after that of the latest transactions, shortest prefix, change, node's hash, signed inputs |
| Wallets.TransferIsValid | src/transaction.cc:167-211 | every such transaction passes the node's validation, with distinct inputs and equal sums |
| Wallets.NodeTakesTransfer | src/node.cc:319-334 | posting it succeeds exactly when the pool has room and no pooled transaction shares an input |
| Settlement.BalanceUpdated | src/transaction.cc:314-332 | what one update does to one balance |
| Settlement.BlockBalance | src/node.cc:496-497 | what a whole block does to one balance |
| Settlement.RunLatestIndex | bwallet/bwallet.go:346-347 | in every run the index the wallet takes from the latest transactions is the index of the next block |
| Settlement.TransferSettles | README.md:155-170 | transfer, post and mine, in any clear state, with other transactions in the pool and in any build: the amount moves, the miner gets the reward, the pooled transactions pay their outputs and take their unspent inputs, no other balance changes |
| Witnesses.PruningDoubleSpends | src/transaction.cc:407-419 | a run with clean messages in which pruning, with nothing undefined, skips a stale neighbour: an output is spent twice, the block adds two rewards to the supply, a peer in step rejects it |
| Witnesses.SpentRewardReturns | src/node.cc:541-547 | a run in which replacement makes a spent reward unspent again |
| Witnesses.SupplyBroken | src/transaction.cc:204-208 | a run whose unspent outputs add up to 2^64 more than its rewards |
| Witnesses.TransferChainRefused | src/node.cc:518-528 | a run that settles a transfer and whose chain an empty node refuses |
| Witnesses.AheadBlockDesyncs | src/node.cc:437-461 | a valid block of index 1 that an empty node takes, after which its cache does not belong to its chain |
| Witnesses.PostedRewardStopsMining | src/transaction.cc:364-386 | a posted reward transaction that the pool takes and that makes mining throw and lose the pool, in every build |
| Witnesses.DoubleInputAccepted | src/transaction.cc:174-208 | a transaction that names one output twice validates and doubles the coins |
| Witnesses.NoInputsAccepted | src/transaction.cc:174-208 | a transaction without inputs whose outputs wrap around to zero validates and creates 2^64 coins |
| Witnesses.NoOutputsOverruns | src/transaction.cc:323-331 | a transaction without outputs validates and drives the erasing loop past the end of the list |
| Witnesses.SharedInputAccepted | src/transaction.cc:259-280 | two transactions of one block that spend the same output both validate, and the second spends nothing |

## Left out

- Sockets, request routing, peers and threads; messages are an unordered set, handlers are atomic, and the missing locks around pool and unspent outputs are not captured.
- OpenSSL hashing and signatures, key files, base64 addresses: function values of the configuration.
- JSON text: records are datatypes, except for digests and the texts that are hashed; malformed JSON other than bad digests and unknown transaction types does not occur.
- TOML, logging, options, Python bindings and persisting to a file. Runs start with an empty chain; without proof of work, starting from a file with a valid chain is a run whose first step takes that chain.
- Double rounding, and difficulties below one half, for which the cast of a negative logarithm is undefined; configurations with an adjustment interval of zero or a factor limit below one.
- Termination of the nonce search: the loop is given a finite list of clock readings, and what it returns is stated for searches that end within it.
- Several clock readings inside one handler: validation is monotone in the clock, so later readings accept whatever earlier ones do.
- Pools.UnconfirmedPool.Prune: reports where the source reads on in an erased transaction or advances past the end, which is undefined, and continues with the list as it is then; theorems on runs with such a step speak of that reading.
- Pools.UnconfirmedPool.Remove: the same for advancing past the end.
- Unspent.EraseLoop: ends the scan where the source advances an iterator past the end, which is undefined.
- Wallets.WalletTransfer: Go's 64-bit integers are unbounded here, so balances of 2^63 and more are not faithful; requests that fail before coins are selected are not modelled.
- Consensus.Replication: with proof of work it is stated for steps that leader and follower judge alike; the receiver's stricter test and the pre-mining timestamp of the miner can make them differ.
- Consensus.Quiescence: without proof of work; messages come from nodes of the network, not from outside it.
