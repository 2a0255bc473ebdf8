# Verified model of the deadcat node and client

This project models the hard core of deadcat, a prediction-market system on the Liquid sidechain, and
proves properties of the model. A node follows a chain source that may switch branches at any moment,
interprets every block against a store of market contracts, and serves events. A client plans market
transitions, composes them and venue legs into transactions, and replays what nodes report.
`dafny verify dfyconfig.toml` checks the whole project.

What the parts prove, each over all inputs or all runs:

- **Block interpretation** (`Ledger`, `Overlay`, `OverlayRefinement`, `OverlayBlocks`, `Interpreter`):
  reading a block through the overlay of its earlier changes is the same as committing them first; the
  owner index stays the inverse of the live lists; nothing is spent twice; rollback undoes commit.
- **Chain synchronization** (`Merkle`, `ChainStore`, `Branches`, `ChainSync`): the loop terminates whatever
  the source answers, every stored block is the interpretation of a complete block over the rows below it as
  they stood, Ready is reported only for a tip seen canonical after the last block, and one tip means one
  indexed chain. Which output rows a rollback brings back is stated exactly; on branches that repeat no
  transaction id it brings back all, and the store never refuses a block it is given. Against a source that
  stays as it is and can be indexed, the loop ends Ready at the source's tip.
- **Markets** (`Scalar`, `Market`, `MarketLayout`, `MarketPlan`, `MarketSpend`, `Replay`): byte-wise modular
  arithmetic is arithmetic; markets stay solvent over every run; each plan leaves what the next one needs;
  the interpreter explains what the builder's checks let through, but for the case named below.
- **Node and client** (`Agreement`, `Chronicle`): a node started at an activation anchor and synchronized any
  number of times, on branches that repeat no transaction id, serves only markets that a client accepts when
  it replays the indexed transactions from the market's creation.
- **Composition** (`Locktime`, `Composition`, `Composer`, `Venue`): contributions tile one transaction,
  blinders are the named inputs, an executed route fulfils the request it was made for, and every allowed
  route that can be composed is.
- **Events, inventory, recovery** (`Subscription`, `Inventory`, `Recovery`): exact replay with one
  marker in a stated number of turns, quotes only from the last scan, canonical codecs.

Conventions. Hashes, transaction ids, assets and keys are numbers that are equal exactly when the hashes
are. The chain source, the clock, the journal, the wallet scan and other holders of shared state answer
each call from an arbitrary function of the call's number, so nothing is assumed between two calls.
Functions the repository takes from libraries (script classification, Schnorr verification, witness
decoding, pair and header hashes, serialized size) are function values. An output's confidential asset
and value are recorded by the factors they commit to. Integers of 32 and 64 bits are checked where the
source checks them.

Where the source falls short of a promise, the code is modelled as it is, with the exact condition beside
the failing case. Expired markets would redeem more tokens of one side than exist
(`Market.ExpiredRedemptionCanExceedSupply`, exactly `Market.ExpiredRedemptionExactly`). A zero lower bound
is dropped from locktime constraints (`Locktime.ZeroBoundIgnoresItsUnit`, exactly
`Locktime.StrictReadingExactly`). Rolling a block back does not restore an output row that the block
overwrote (`Ledger.ReproducedOutputIsLost`, exactly `Ledger.RollbackUndoesBlock` for one block and
`ChainStore.StandsExactly` for a whole rollback). The builder's own expiry
check lets a time lock through, which its later execution of the covenant refuses
(`MarketSpend.TimeLockPassesBuilderOnly`, exactly `MarketSpend.ExpiryChecksCompared`). Without the
duplicate-id check, repeated last transactions would share a Merkle root (`Merkle.RepeatedTailSharesRoot`);
with it, roots are shared exactly with layers of the same tree (`Merkle.RootsMeetAtLayer`).

## Model

| member | source | states |
|---|---|---|
| OverlayRefinement.OwnerScanIsCommitted | crates/deadcat-node/src/interpreter.rs:377-414 | the backwards owner scan over the block's deltas finds an owner exactly when the committed owner index has one, and the same one, unless the outpoint was spent earlier in the block |
| OverlayRefinement.ContractReplayIsCommitted | crates/deadcat-node/src/interpreter.rs:416-449 | the forwards replay of a contract over the deltas is the committed contract row, and cannot fail on deltas that commit |
| OverlayRefinement.OutputScanIsCommitted | crates/deadcat-node/src/interpreter.rs:348-375 | the output lookup through the deltas' transactions is the committed output row |
| OverlayRefinement.InterpretCongruent | crates/deadcat-node/src/interpreter.rs:68-209 | interpretation depends on a view only through the owners, contracts and outputs it is asked for |
| OverlayRefinement.OverlayRefinesCommit | crates/deadcat-node/src/interpreter.rs:348-449 | overlay refines commit: if an input was spent earlier in the block interpretation fails, otherwise it gives, value or error alike, what it gives with no deltas against the rows after committing them |
| OverlayBlocks.InterpretedCommits | crates/deadcat-node/src/interpreter.rs:244-275 | the delta of an interpreted transaction is accepted by the store, and new owners are only outputs of that transaction |
| OverlayBlocks.BlockKeepsInvariant | crates/deadcat-node/src/sync.rs:446-495 | every interpreted block prefix commits, coherently, with fresh ids, spending only older outputs |
| OverlayBlocks.InterpretedBlockIsSafe | crates/deadcat-node/src/interpreter.rs:170-275 | over every interpreted block the owner index is the exact inverse of the live lists, no outpoint is spent twice, and replaying any contract through the overlay succeeds |
| OverlayBlocks.OverlayNeverFaults | crates/deadcat-node/src/interpreter.rs:416-465 | after any interpreted prefix the next transaction never fails as a duplicate contract, state mismatch, missing contract or missing output of the overlay's own making |
| Interpreter.FindTracked | crates/deadcat-node/src/interpreter.rs:377-414 | the first tracked entry of an outpoint in a list, or none |
| Interpreter.OwnerInUpdates | crates/deadcat-node/src/interpreter.rs:377-414 | one delta's updates, newest first: spent, newly owned or not mentioned, as the scan defines it |
| Interpreter.OwnerInCreated | crates/deadcat-node/src/interpreter.rs:377-414 | one delta's created contracts: the owner of the outpoint, if any |
| Interpreter.OwnerInContext | crates/deadcat-node/src/interpreter.rs:377-414 | the early-return backwards scan computes the owner scan of the overlay view |
| Interpreter.ContractInContext | crates/deadcat-node/src/interpreter.rs:416-449 | the replay loop computes the contract of the overlay view, with the same failures |
| Interpreter.MaterializeOutput | crates/deadcat-node/src/interpreter.rs:348-375 | the newest-first search for an output computes the output of the overlay view |
| Interpreter.MaterializeMarketOutputs | crates/deadcat-node/src/interpreter.rs:306-346 | filling the three live outputs in a loop rejects a role used twice and a role that is no slot |
| Interpreter.ValidateAtomicClaims | crates/deadcat-node/src/interpreter.rs:244-275 | the loop with three sets accepts exactly batches with one leg per contract, no outpoint spent twice and none created twice |
| Interpreter.RetainCanonicalCreation | crates/deadcat-node/src/interpreter.rs:211-242 | a known contract is dropped if its identity matches and refused otherwise |
| Interpreter.CreatedContracts | crates/deadcat-node/src/interpreter.rs:92-168 | the creations of a transaction that are retained, in declaration order |
| Interpreter.TouchedContracts | crates/deadcat-node/src/interpreter.rs:170-197 | the contracts owning an input, each once, in input order; an input spent earlier in the block is refused |
| Interpreter.UpdateOf | crates/deadcat-node/src/interpreter.rs:277-304 | one contract's update from its materialized outputs, spending its live outputs completely |
| Interpreter.StateUpdates | crates/deadcat-node/src/interpreter.rs:199-204 | the updates of the touched contracts, in order, or the first failure |
| Interpreter.InterpretTransaction | crates/deadcat-node/src/interpreter.rs:68-209 | the loops together compute the interpretation of a transaction in a view |
| Interpreter.InterpretCanonicalBlock | crates/deadcat-node/src/sync.rs:446-495 | interpreting a block transaction by transaction computes the block's deltas |
| Ledger.CommitKeepsCoherent | crates/deadcat-node/src/store.rs:2543-2652 | committing any deltas keeps the owner index the exact inverse of the contracts' live outpoints |
| Ledger.CommitTxEffect | crates/deadcat-node/src/store.rs:2543-2652 | what one committed transaction changes: its legs, then its outputs, and nothing else |
| Ledger.RevertUndoesCommits | crates/deadcat-node/src/store.rs:1831-1850 | replaying the change log of a block backwards restores every contract and owner row |
| Ledger.RollbackUndoesBlock | crates/deadcat-node/src/store.rs:1796-1914 | rollback after commit succeeds and restores all rows; the output rows exactly when no produced outpoint was stored before |
| Ledger.ReproducedOutputIsLost | crates/deadcat-node/src/store.rs:1848-1850 | a block that creates a contract at an outpoint already stored takes the output row along when rolled back |
| TransitionCodec.ClientRecord | crates/deadcat-client/src/validation.rs:610-662 | the client's encoder produces the node's record for every path and transition |
| TransitionCodec.RecordRoundTrip | crates/deadcat-node/src/interpreter.rs:467-519 | decoding a record gives back its path and transition |
| TransitionCodec.RecordInjective | crates/deadcat-node/src/interpreter.rs:467-519 | two records are equal exactly when path and transition are |
| Merkle.TransactionMerkleRoot | crates/deadcat-node/src/sync.rs:649-670 | the layer loop computes the root that pairs hashes and repeats an odd last node; none for no transactions |
| Merkle.NextLayer | crates/deadcat-node/src/sync.rs:655-667 | the pairing loop computes the next layer |
| Merkle.RootDeterminesList | crates/deadcat-node/src/sync.rs:634-670 | under an injective pair hash, duplicate-free lists of equal depth have equal roots exactly when they are equal |
| Merkle.RootsMeetAtLayer | crates/deadcat-node/src/sync.rs:634-670 | at any depths: duplicate-free lists have equal roots exactly when the shallower is the layer of the deeper at the height by which their trees differ |
| Merkle.RepeatedTailSharesRoot | crates/deadcat-node/src/sync.rs:634-670 | what the duplicate-id check is for: repeating the odd last id gives another list of the same depth and root |
| Merkle.DeeperTreeDiffers | crates/deadcat-node/src/sync.rs:649-670 | trees of different depth differ at the root if no id is itself a hash of two |
| Merkle.RootDeterminesListAtAnyDepth | crates/deadcat-node/src/sync.rs:634-670 | then equal roots mean equal lists at any depth |
| Merkle.HasDuplicates | crates/deadcat-node/src/sync.rs:634-647 | the set-insertion loop finds exactly the repeated ids |
| Merkle.ValidateCompleteBlock | crates/deadcat-node/src/sync.rs:614-647 | a block passes exactly when hash, height, predecessor, non-emptiness, distinct ids and root all hold |
| Merkle.ValidBlocksShareTransactions | crates/deadcat-node/src/sync.rs:614-647 | two blocks that pass for one hash have the same header, and one id list is a layer of the other; the lists are equal exactly when the trees are equally deep |
| ChainStore.StandsExactly | crates/deadcat-node/src/store.rs:1831-1880 | the rows of a height stand as its block left them exactly when no block undone above it re-produced a stored outpoint |
| ChainStore.StepDownRows | crates/deadcat-node/src/store.rs:1831-1880 | undoing one block restores the contract and owner rows below and, of the output rows, those that neither it nor an earlier undone block produced |
| ChainStore.UnwindOutputs | crates/deadcat-node/src/store.rs:1831-1880 | a completed unwinding takes away exactly the outputs the undone blocks produced |
| ChainStore.UnwindRestores | crates/deadcat-node/src/store.rs:1796-1914 | unwinding block after block from retained undo rows leads to the ancestor's checkpoint and rows, output rows included exactly when no undone block re-produced one |
| ChainStore.Store.constructor | crates/deadcat-node/src/store.rs:1963-2000 | a new store is empty at its activation anchor, in rows, blocks, undo rows and history alike |
| ChainStore.Store.SetStatus | crates/deadcat-node/src/store.rs:704-737 | a store that needs a rescan cannot be declared otherwise |
| ChainStore.Store.InvalidateForRebuild | crates/deadcat-node/src/store.rs:1916-1929 | marks the store as needing a rescan and changes nothing else |
| ChainStore.Store.ApplyBlock | crates/deadcat-node/src/store.rs:1683-1794 | accepts exactly a well-shaped next block on the tip whose deltas commit, and then states the whole new store; otherwise nothing changes |
| ChainStore.Store.StageRollback | crates/deadcat-node/src/store.rs:1831-1880 | the staged loop computes the unwound store |
| ChainStore.Store.RollbackTo | crates/deadcat-node/src/store.rs:1796-1914 | rolls back exactly to a canonical ancestor within the undo window; contract and owner rows of that height come back whole, output rows but for those undone blocks produced, which is all of them exactly when none was stored before; asks for a rebuild exactly when the window is exceeded |
| Branches.InterpretedShapeOk | crates/deadcat-node/src/store.rs:1683-1739 | the changes of every interpreted complete block have the shape the store checks |
| Branches.CleanStands | crates/deadcat-node/src/store.rs:1796-1914 | on a store that followed branches repeating no transaction id, every height stands as its block left it |
| Branches.DescendedIsClean | crates/deadcat-node/src/store.rs:1796-1914 | rolling such a store back leaves such a store |
| Branches.FreshCommits | crates/deadcat-node/src/interpreter.rs:170-275 | the interpretation of a block with fresh ids commits, and what it stores and would undo is its own branch's |
| Branches.CleanAdmits | crates/deadcat-node/src/store.rs:1683-1794 | such a store admits the interpretation of every complete block with fresh ids on its tip, and stays such a store |
| ChainSync.CommonDepthIsHighest | crates/deadcat-node/src/sync.rs:299-337 | the depth searched for is that of the highest block the source shares within the window |
| ChainSync.WindowAnswers | crates/deadcat-node/src/sync.rs:307-323 | a source that names every hash of the window, a store whose window lies above its activation or reaches a shared block: the search gets all its answers |
| ChainSync.EvidenceExtends | crates/deadcat-node/src/sync.rs:446-495 | a block read over the rows at the tip as they stand and committed is evidence for the next height |
| ChainSync.EvidenceDescends | crates/deadcat-node/src/store.rs:1796-1914 | rolling back keeps the evidence of every block that stays |
| ChainSync.ReadOverLeftRows | crates/deadcat-node/src/sync.rs:446-495 | an indexed block was read over the rows its predecessor left exactly when no undone block re-produced one of them |
| ChainSync.CleanReads | crates/deadcat-node/src/sync.rs:446-495 | on branches that repeat no transaction id it always was |
| ChainSync.SameHashSameBlock | crates/deadcat-node/src/sync.rs:614-670 | two complete blocks of one hash have the same predecessor and transaction ids |
| ChainSync.TipDeterminesChain | crates/deadcat-node/src/sync.rs:614-670 | stores with one activation and one tip indexed the same checkpoints and transaction ids at every height, whatever sources they followed |
| ChainSync.Coordinator.constructor | crates/deadcat-node/src/sync.rs:117-140 | the coordinator's invariant holds at the start, over the evidence it is given |
| ChainSync.Coordinator.PinStillCanonical | crates/deadcat-node/src/sync.rs:559-566 | true only if the source reached the pin's height and then named its hash; always true against a steady source that has the pin |
| ChainSync.Coordinator.BlockStillPinned | crates/deadcat-node/src/sync.rs:550-557 | true only if the block and then the pin were seen on the source's chain |
| ChainSync.Coordinator.FindCommon | crates/deadcat-node/src/sync.rs:307-323 | walks back to the least depth the source shares, for a steady source exactly the common depth; it fails exactly when a height on the way cannot be compared |
| ChainSync.Coordinator.StepBack | crates/deadcat-node/src/sync.rs:327-337 | rolls back to the shared ancestor or asks for a rescan; on branches that repeat no transaction id every row of the ancestor's height is back |
| ChainSync.Coordinator.Reconcile | crates/deadcat-node/src/sync.rs:299-337 | against a source steady during the call: stable if the tip is shared, back exactly to the highest common block within the undo window, and a rescan exactly when it lies deeper; it succeeds exactly when the source answers wherever it is asked |
| ChainSync.Coordinator.FetchBlock | crates/deadcat-node/src/sync.rs:401-422 | a returned block is complete for its height, hash and expected predecessor; against a source that stays as it is the offered complete block is returned |
| ChainSync.Coordinator.ReadNext | crates/deadcat-node/src/sync.rs:446-495 | what is read for the next height is the interpretation of a complete block over the stored rows, the pin seen canonical afterwards |
| ChainSync.Coordinator.ApplyRead | crates/deadcat-node/src/sync.rs:247-268 | the block just read becomes the store's next one, with its evidence, or nothing changes; a store on branches that repeat no transaction id takes it |
| ChainSync.Coordinator.AdvanceOne | crates/deadcat-node/src/sync.rs:247-268 | applies one block or, if the branch changed or anything failed, changes nothing; on branches that repeat no transaction id the store never refuses the block |
| ChainSync.Coordinator.AdvanceTo | crates/deadcat-node/src/sync.rs:247-268 | counts one for every height gained, and reaches the pin's height unless the branch changed; against a source that stays as it is and can be indexed it reaches the pin |
| ChainSync.Coordinator.NoteRestart | crates/deadcat-node/src/sync.rs:286-297 | a restart is granted exactly while the limit and 32 bits allow |
| ChainSync.Coordinator.ConfirmPin | crates/deadcat-node/src/sync.rs:270-274 | true only if the stored tip is the pin and the pin was seen canonical just now |
| ChainSync.Coordinator.CatchUp | crates/deadcat-node/src/sync.rs:241-274 | settled only with tip and pin equal and the pin seen canonical after the last block |
| ChainSync.Coordinator.Settle | crates/deadcat-node/src/sync.rs:209-274 | every pass settles, lowers the tip, is disturbed or needs a rescan, and the counters follow the tip's height |
| ChainSync.Coordinator.OnePass | crates/deadcat-node/src/sync.rs:209-274 | one pass against a source that stays as it is settles at its tip if nothing is to be undone, and otherwise undoes exactly the common depth |
| ChainSync.Coordinator.Passes | crates/deadcat-node/src/sync.rs:209-284 | the loop terminates for every source behaviour; against a source that stays as it is it ends Ready at its tip |
| ChainSync.Coordinator.SyncToTip | crates/deadcat-node/src/sync.rs:185-284 | terminates for every source behaviour (restarts left, then tip height); keeps checkpoints linked and each backed by the interpretation of a complete block; Ready only for a tip seen canonical after the last block applied; applied less rolled back is the height gained; on branches that repeat no transaction id no store failure is ever reported; against a source that stays as it is, whose chain the store is on or left within what it can undo, and whose blocks are complete and interpretable, it ends Ready at the source's tip with no restart |
| Scalar.SubtractSameWidth | crates/deadcat-contracts/src/rt.rs:212-225 | the borrow loop computes the difference modulo 256^n, borrowing exactly when the left is smaller |
| Scalar.AddWithCarry | crates/deadcat-contracts/src/rt.rs:179-186 | the carry loop computes the exact sum, one byte wider |
| Scalar.LessIsLess | crates/deadcat-contracts/src/rt.rs:208-210 | byte order is numerical order at equal width |
| Scalar.OrderValue | crates/deadcat-contracts/src/rt.rs:10-14 | the order constant is the secp256k1 group order n |
| Scalar.OrderRange | crates/deadcat-contracts/src/rt.rs:107-117 | n lies between half of the 256-bit range and all of it |
| Scalar.ReduceScalar | crates/deadcat-contracts/src/rt.rs:112-117 | the value modulo n, for all 32-byte arrays |
| Scalar.AddModOrder | crates/deadcat-contracts/src/rt.rs:176-194 | addition modulo n, reduced, for all 32-byte arrays |
| Scalar.SubtractModOrder | crates/deadcat-contracts/src/rt.rs:197-206 | subtraction modulo n, reduced, for all 32-byte arrays |
| Scalar.NoCbf | crates/deadcat-contracts/src/rt.rs:124-128 | the negation of the YES factor modulo n |
| Scalar.Cbf | crates/deadcat-contracts/src/rt.rs:130-136 | the commitment factor of a leg |
| Scalar.FactorsFor | crates/deadcat-contracts/src/rt.rs:138-145 | asset and value factors add up to the commitment factor modulo n, on both sides of both legs |
| Scalar.CommitmentsBalance | crates/deadcat-contracts/src/rt.rs:138-145 | the same of the schedule as numbers |
| Scalar.LegsCancel | crates/deadcat-contracts/src/rt.rs:22-28 | the YES and NO commitment factors sum to zero modulo n |
| Scalar.SidesDiffer | crates/deadcat-contracts/src/rt.rs:149-162 | the two sides differ in both factors of either leg |
| Market.TransitionNamesAction | crates/deadcat-contracts/src/binary_market.rs:963-1139 | the reported transition carries the action it came from |
| Market.StepKeepsSolvency | crates/deadcat-contracts/src/binary_market.rs:963-1139 | every accepted, token-backed operation keeps the books solvent |
| Market.RunIsSolvent | crates/deadcat-contracts/src/binary_market.rs:963-1139 | over every run from a dormant market, locked less released is the collateral held, and that is exactly the payout of the tokens in circulation |
| Market.SolventStateIsValid | crates/deadcat-contracts/src/binary_market.rs:928-960 | a solvent state always passes the state check |
| Market.RedemptionWithinSupplySucceeds | crates/deadcat-contracts/src/binary_market.rs:1083-1139 | any redemption of existing redeemable tokens succeeds without overflow and strictly lowers the collateral |
| Market.ResolvedRedemptionExactly | crates/deadcat-contracts/src/binary_market.rs:1083-1139 | in a resolved market the economics accepts exactly the redemptions within the winning supply |
| Market.ExpiredRedemptionCanExceedSupply | crates/deadcat-contracts/src/binary_market.rs:1083-1139 | after expiry it does not look at which side is burned: it would pay more YES tokens than exist |
| Market.ExpiredRedemptionExactly | crates/deadcat-contracts/src/binary_market.rs:1083-1139 | after expiry it accepts exactly up to both supplies together |
| Market.RedeemOnce | crates/deadcat-contracts/src/binary_market.rs:1083-1139 | one redemption in closed form: when it is accepted and what is left |
| Market.RedeemAllByTotal | crates/deadcat-contracts/src/binary_market.rs:1083-1139 | a list of redemptions succeeds exactly when each is proper and the total fits, and only the total matters |
| Market.RedemptionOrderIsIrrelevant | crates/deadcat-contracts/src/binary_market.rs:1083-1139 | a permuted list of redemptions is accepted alike and ends in the same state |
| MarketLayout.InferSideExactly | crates/deadcat-contracts/src/rt.rs:149-162 | a side is inferred exactly for the commitments of that side |
| MarketLayout.AcceptedHasLayout | crates/deadcat-contracts/src/binary_market.rs:512-598 | every accepted operation has a layout, and its path says which phase it leaves and enters |
| MarketLayout.WindowLeavesLive | crates/deadcat-client/src/validation.rs:518-539 | collecting the covenant outputs of a step's window gives exactly the live outputs of the state it leads to |
| MarketLayout.AppliedStateIsValid | crates/deadcat-contracts/src/binary_market.rs:928-975 | an accepted operation leads to a state that passes the state check |
| MarketLayout.StepLeavesCanonical | crates/deadcat-client/src/market_builder.rs:321-400 | those live outputs are the canonical ones: slots, order, amount, both tokens on one side |
| MarketLayout.CanonicalPassesShape | crates/deadcat-client/src/validation.rs:379-448 | canonical live outputs pass the client's shape check in any order of reporting |
| MarketPlan.ShapeIsFit | crates/deadcat-client/src/market_builder.rs:1154-1250 | the path-driven shape check accepts exactly the live inputs the old state calls for |
| MarketPlan.ShapeFitsASide | crates/deadcat-client/src/market_builder.rs:1154-1259 | and the side read off both tokens is the one that fits |
| MarketPlan.AppendNonRtOutputs | crates/deadcat-client/src/market_builder.rs:1045-1152 | the path-driven collateral and burn outputs are those of the new state and transition |
| MarketPlan.RtTemplates | crates/deadcat-client/src/market_builder.rs:321-389 | the token outputs continue in the new state's slots or burn |
| MarketPlan.NewPlan | crates/deadcat-client/src/market_builder.rs:297-411 | a plan exists exactly when the economics accepts, the live inputs fit and a resolution is attested; its outputs are the window of the new state on the flipped side |
| MarketPlan.VerifyInputs | crates/deadcat-client/src/market_builder.rs:745-855 | the loop checks exactly outpoint, script and token output or collateral amount of every slot in order, and the issuance fields |
| MarketPlan.VerifyOutputs | crates/deadcat-client/src/market_builder.rs:661-670 | the loop accepts exactly transactions that contain the planned outputs from the base on |
| MarketPlan.CanonicalFits | crates/deadcat-client/src/market_builder.rs:1154-1229 | from canonical live outputs every action the economics accepts can be planned |
| MarketPlan.NextChecksDemandLive | crates/deadcat-client/src/market_builder.rs:745-803 | the next plan's input checks demand exactly the live outputs: outpoint, script and amount, slot by slot |
| MarketPlan.AdvanceStaysCanonical | crates/deadcat-client/src/market_builder.rs:297-411 | one confirmed plan leads from canonical live outputs to canonical live outputs, flipping the side if it consumed the tokens |
| MarketPlan.RunStaysCanonical | crates/deadcat-client/src/market_builder.rs:297-411 | along every run of plans the outputs left fit the next plan, both tokens on one side, flipped once per token-consuming move |
| MarketSpend.LocateInput | crates/deadcat-contracts/src/interpret.rs:112-129 | the index of an outpoint among the inputs if it occurs exactly once |
| MarketSpend.VerifyInputGroup | crates/deadcat-contracts/src/interpret/binary_market.rs:538-669 | accepts exactly inputs that spend the live group in slot order, siblings where required, without stray issuances |
| MarketSpend.VerifyTokenOutputs | crates/deadcat-contracts/src/interpret/binary_market.rs:288-509 | the path-by-path token and collateral checks accept exactly the kept part of the new state's window |
| MarketSpend.VerifyRedemptionOutputs | crates/deadcat-contracts/src/interpret/binary_market.rs:510-535 | a redemption's outputs are accepted exactly when they are its window |
| MarketSpend.CancelDiscriminator | crates/deadcat-contracts/src/interpret/binary_market.rs:1020-1038 | if collateral and tokens are distinct assets, the third output tells a full from a partial cancellation |
| MarketSpend.RedeemDiscriminator | crates/deadcat-contracts/src/interpret/binary_market.rs:1040-1087 | and the burn found is the redemption's outcome and amount |
| MarketSpend.IssuancesByPath | crates/deadcat-contracts/src/interpret/binary_market.rs:1111-1137 | what an issue reads and what its path forbids are together what the action calls for |
| MarketSpend.AccountedIsDecoded | crates/deadcat-contracts/src/interpret/binary_market.rs:114-152 | decoding finds the one action that accounts for a spend |
| MarketSpend.VerifyOutputs | crates/deadcat-contracts/src/interpret/binary_market.rs:288-536 | outputs of a decoded action are accepted exactly when its whole window is there |
| MarketSpend.ReadSpend | crates/deadcat-contracts/src/interpret/binary_market.rs:156-285 | what it accepts is accounted for by its action, and with three distinct assets it misses nothing |
| MarketSpend.InterpretSpend | crates/deadcat-contracts/src/interpret/binary_market.rs:53-153 | a spend is accepted exactly when the parameters compile and some action explains it, inputs, issuances and outputs alike, and then with that very action |
| MarketSpend.CompiledAssets | crates/deadcat-contracts/src/binary_market/compiled.rs:410-436 | parameters that compile have distinct assets and a positive expiry height |
| MarketSpend.ExplainedSpendIsSound | crates/deadcat-contracts/src/interpret/binary_market.rs:538-558 | an explained spend consumes inputs of its transaction and leaves distinct new outputs of it |
| MarketSpend.ExplainedLeavesCanonical | crates/deadcat-contracts/src/interpret/binary_market.rs:288-536 | the outputs it leaves are the canonical live outputs of the next state |
| MarketSpend.FinalizedPlanIsExplained | crates/deadcat-client/src/market_builder.rs:643-745 | executing the covenant adds exactly what is missing: a checked proposal is explained by the planned action exactly when, for an expiry, the covenant's lock check passes |
| MarketSpend.CheckedPlanIsExplained | crates/deadcat-client/src/market_builder.rs:612-670 | whatever passes the builder's parameter, input, expiry and output checks the interpreter explains with the planned action, exactly unless it is an expiry under a time lock |
| MarketSpend.ExpiryChecksCompared | crates/deadcat-contracts/simplicityhl/binary_market/transitions.simf:201-240 | of what the builder's check accepts the interpreter's accepts the height locks; of what the interpreter's accepts the builder's accepts those all contract inputs activate; covenant and interpreter agree unless the expiry height is zero |
| MarketSpend.TimeLockPassesBuilderOnly | crates/deadcat-client/src/market_builder.rs:857-888 | a time lock passes the builder's expiry check, and neither the interpreter's nor the covenant's |
| Replay.UniqueDefiningInput | crates/deadcat-client/src/validation.rs:450-476 | the one input that defines a leg, if there is exactly one |
| Replay.UniqueMarketOutput | crates/deadcat-client/src/validation.rs:478-501 | the one output equal to the dormant token output, if there is exactly one |
| Replay.LiveFromContinuations | crates/deadcat-client/src/validation.rs:518-539 | the loop collects the live outputs of a list of continuations |
| Replay.ReplayMarket | crates/deadcat-client/src/validation.rs:218-291 | accepts a history exactly when the parameters compile, it starts from the market's creation and its records, final state and live set are those of folding the interpreter |
| Replay.ReplayFrom | crates/deadcat-client/src/validation.rs:272-290 | the loop accepts exactly the histories whose records, final state and live set are those of the fold |
| Replay.ExplainedRulesAreSound | crates/deadcat-node/src/interpreter.rs:277-304 | a node that reads spends this way meets what whole-block interpretation asks of its rules |
| Replay.CreationIsCanonical | crates/deadcat-client/src/validation.rs:262-271 | the initial live outputs of a creation are canonical on side A |
| Replay.FoldStaysCanonical | crates/deadcat-client/src/validation.rs:272-281 | every stage of an explained history has the canonical live outputs of its state |
| Replay.AcceptedReplayHasShape | crates/deadcat-client/src/validation.rs:379-448 | a duplicate-free live set that survives replay has the shape its state calls for |
| Replay.NodeSeesClientLive | crates/deadcat-node/src/interpreter.rs:306-335 | the node, reading back roles and outputs, sees the live outputs the client collects from continuations |
| Agreement.ExplainedContinuationsReal | crates/deadcat-contracts/src/interpret/binary_market.rs:1211-1264 | every continuation is an output of the spending transaction under the market's script, one for each holding |
| Chronicle.VerifyDeclared | crates/deadcat-node/src/registration.rs:330-509 | a declared market is verified exactly when its parameters compile and the transaction creates it under its id, and the new record tracks its two dormant tokens |
| Chronicle.VerifyDiscovered | crates/deadcat-node/src/registration.rs:330-451 | an undeclared market is found exactly for a standalone creation with one hint whose market compiles and whose dormant tokens are the two first outputs, and its record is founded like a declared one |
| Chronicle.FoundingRulesAreSound | crates/deadcat-node/src/registration.rs:330-509 | a node that verifies creations so and reads spends by explanation meets all that block interpretation and admission ask of its rules |
| Chronicle.CommittedCore | crates/deadcat-node/src/store.rs:1740-1794 | the stored record after a committed transaction: the created one, the one update applied, or unchanged |
| Chronicle.UpdateAgrees | crates/deadcat-node/src/interpreter.rs:277-304 | after any committed transaction the client's fold over the contract's spends still ends in the stored record |
| Chronicle.CreationAgrees | crates/deadcat-node/src/registration.rs:330-509 | a created record is the opening stage of the client's replay |
| Chronicle.BlockKeepsAgreement | crates/deadcat-node/src/sync.rs:446-495 | interpreting and committing a block keeps every contract's chronicle in agreement with its record |
| Chronicle.ChainAgrees | crates/deadcat-node/src/sync.rs:446-495 | so it is at every indexed height of a store that followed branches repeating no transaction id |
| Chronicle.ClientAcceptsNodeHistory | crates/deadcat-client/src/validation.rs:218-291 | every market such a node serves is accepted by the client's replay of the indexed blocks: creation, records byte for byte, final state and live set, with no spends or any number |
| Chronicle.ServedMarketsAreAccepted | crates/deadcat-client/src/validation.rs:218-291 | every market in the store of a valid, orderly coordinator passes the client's replay |
| Chronicle.StartNode | crates/deadcat-node/src/sync.rs:117-140 | a new node at an activation anchor is valid and orderly, and on the way to any chain that can be indexed from there |
| Chronicle.RunNode | crates/deadcat-node/src/sync.rs:185-284 | over any number of synchronizations, whatever the source answers, the store refuses nothing and every market served is accepted |
| Chronicle.StartAndRun | crates/deadcat-node/src/sync.rs:117-284 | from nothing: a new node synchronized any number of times serves only markets a client accepts, with no store failure |
| Locktime.ResolveLocktime | crates/deadcat-client/src/composition.rs:908-950 | succeeds exactly when some locktime satisfies every constraint, and gives the least one |
| Locktime.OrderIsIrrelevant | crates/deadcat-client/src/composition.rs:908-950 | the least solution is unique and does not depend on the order of the constraints |
| Locktime.LeastIsTimeExactly | crates/deadcat-client/src/composition.rs:908-950 | the resolved locktime is a time lock exactly when some bound is a time |
| Locktime.ZeroBoundIgnoresItsUnit | crates/deadcat-client/src/composition.rs:917-920 | a zero lower bound is dropped: next to an exact time the time is the only solution, and read strictly as in BIP 65 it violates the zero bound |
| Locktime.StrictReadingExactly | crates/deadcat-client/src/composition.rs:917-920 | the resolved locktime meets every constraint strictly exactly unless some lower bound is zero and some bound is a time; and whenever any locktime does, the resolved one does |
| Composition.Validate | crates/deadcat-client/src/composition.rs:476-575 | the loops accept exactly proposals the manifest holds of |
| Composition.CompiledFitsManifest | crates/deadcat-client/src/composition.rs:768-850 | every compiled output meets what the manifest froze of it |
| Composition.InputPinned | crates/deadcat-client/src/composition.rs:504-525 | what the manifest froze of an input pins outpoint, spent output, proof and sequence |
| Composition.OutputPinned | crates/deadcat-client/src/composition.rs:527-572 | what the manifest froze of an output pins it, but for blinding state and a proof still to come |
| Composer.ManifestPinsStructure | crates/deadcat-client/src/composition.rs:476-575 | a proposal handed back meets the manifest exactly when inputs, outputs, fee and locktime are still the composed ones |
| Composer.AddInput | crates/deadcat-client/src/composition.rs:710-746 | an input is added exactly when its id and outpoint are new and it is supported, and both index maps stay one to one |
| Composer.AddInputs | crates/deadcat-client/src/composition.rs:707-746 | the same over a contribution's inputs |
| Composer.BlinderResolves | crates/deadcat-client/src/composition.rs:782-791 | a local or external reference resolves exactly to the one input it names |
| Composer.CompileOutput | crates/deadcat-client/src/composition.rs:768-842 | an output compiles exactly when it is allowed and its blinder exists, to what was specified, blinded by the named input |
| Composer.AddOutput | crates/deadcat-client/src/composition.rs:760-842 | an output is added exactly when its id is new and it compiles |
| Composer.AddOutputs | crates/deadcat-client/src/composition.rs:756-843 | the same over a contribution's outputs |
| Composer.CollectInputs | crates/deadcat-client/src/composition.rs:707-753 | all inputs in order with their placements, or no composition with them exists |
| Composer.CollectOutputs | crates/deadcat-client/src/composition.rs:755-843 | all outputs in order with their placements, or no composition with them exists |
| Composer.DraftsHold | crates/deadcat-client/src/composition.rs:845-866 | what was drafted always meets its own manifest |
| Composer.ContributionsTile | crates/deadcat-client/src/composition.rs:707-760 | contributions tile inputs and outputs contiguously in order, the fee after the last |
| Composer.OnlyFeeHasNoScript | crates/deadcat-client/src/composition.rs:845-850 | the fee is the only output without a script, and the last |
| Composer.TransactionComposer.constructor | crates/deadcat-client/src/composition.rs:627-635 | starts with no contributions |
| Composer.TransactionComposer.Push | crates/deadcat-client/src/composition.rs:637-647 | appends while the limit allows and returns the position; otherwise nothing changes |
| Composer.TransactionComposer.SettleLocktime | crates/deadcat-client/src/composition.rs:680-695 | the least locktime, accepted exactly if zero or activated by some input |
| Composer.TransactionComposer.Compile | crates/deadcat-client/src/composition.rs:697-871 | a composition, unless some input or output cannot be composed or the result is too large; its manifest always holds |
| Composer.TransactionComposer.Finish | crates/deadcat-client/src/composition.rs:649-872 | composes exactly the composable contributions, unless too large; layout, placements, blinders and fee as specified |
| Venue.UniqueOutput | crates/deadcat-client/src/venue.rs:954-969 | the one output with an id, if there is exactly one |
| Venue.UniqueInput | crates/deadcat-client/src/venue.rs:971-985 | the one input with an id, if there is exactly one |
| Venue.Authorize | crates/deadcat-client/src/venue.rs:484-541 | a proposal is authorized exactly when it keeps to allocation, fees, recipient and blinding rules |
| Venue.AddFees | crates/deadcat-client/src/venue.rs:331-336 | adds fees asset by asset, exactly unless a sum leaves 64 bits |
| Venue.AddLeg | crates/deadcat-client/src/venue.rs:301-337 | one leg joins the totals, or no route with it is allowed |
| Venue.ValidateRoute | crates/deadcat-client/src/venue.rs:278-408 | succeeds exactly for routes the request allows, reporting their checked totals |
| Venue.CheckPayers | crates/deadcat-client/src/venue.rs:724-748 | accepts exactly legs whose payer inputs are in the wallet and claimed by no leg |
| Venue.PushRoute | crates/deadcat-client/src/venue.rs:751-759 | the composer holds exactly wallet and legs in order, each leg id mapped to its position; succeeds exactly within the limit of contributions and without a repeated leg id |
| Venue.LocalBlinderWithin | crates/deadcat-client/src/composition.rs:782-786 | an output blinded locally is blinded by an input of its own contribution |
| Venue.PayerBlinderInWallet | crates/deadcat-client/src/composition.rs:787-791 | a payer reference is resolved to that wallet input |
| Venue.AuthorizedLegSettles | crates/deadcat-client/src/venue.rs:484-541 | an authorized leg of a composition is settled as authorized: amounts, recipient, wallet-blinded payment, all else blinded by its own inputs |
| Venue.Compose | crates/deadcat-client/src/venue.rs:719-773 | exactly the composable routes are composed, unless too large, and a composed route settles every leg exactly as authorized |
| Venue.EconomicOutputsDistinct | crates/deadcat-client/src/venue.rs:719-773 | payments and receipts of all legs occupy pairwise distinct positions |
| Venue.RouteMeetsBounds | crates/deadcat-client/src/venue.rs:350-387 | what the transaction itself pays and receives meets the exact-in or exact-out bounds |
| Venue.SettledRouteFulfils | crates/deadcat-client/src/venue.rs:719-773 | a settled allowed route fulfils its request: distinct positions, receipts to the request's recipient in the bought asset, payments in the sold asset blinded by their payers, amounts within the trade bounds |
| Venue.ExecuteRoute | crates/deadcat-client/src/venue.rs:278-773 | validates and composes: whatever is returned is allowed, composable and fulfils the request, and its reported totals are what the transaction pays and receives; an allowed, composable route is returned unless too large |
| Subscription.FilterBySubject | crates/deadcat-node/src/rpc_handler.rs:693-714 | a contract filter lets through exactly the events about one of its contracts, and every status change |
| Subscription.MatchingExactly | crates/deadcat-node/src/rpc_handler.rs:557-583 | the replayed range contains exactly its matching events |
| Subscription.MatchingIncreases | crates/deadcat-node/src/rpc_handler.rs:557-583 | in strictly increasing order, so without repeats |
| Subscription.MarkerSplitsExactly | crates/deadcat-node/src/rpc_handler.rs:534-570 | exactly one marker, after all events up to the watermark and before all later ones |
| Subscription.Subscriber.constructor | crates/deadcat-node/src/rpc_handler.rs:516-531 | a subscription opens at the current watermark with nothing received |
| Subscription.Subscriber.EventsAfter | crates/deadcat-node/src/store.rs:749-781 | a batch is the next events after the cursor, as many as there are up to 256; another epoch or a failed read ends it |
| Subscription.Subscriber.EmitCaughtUp | crates/deadcat-node/src/rpc_handler.rs:534-555 | the marker goes out at the watermark and the subscriber has what its cursor calls for |
| Subscription.Subscriber.Forward | crates/deadcat-node/src/rpc_handler.rs:557-583 | a batch is forwarded event by event, stopping at the watermark while replaying |
| Subscription.Subscriber.Step | crates/deadcat-node/src/rpc_handler.rs:533-598 | one turn keeps the subscriber at exactly what its cursor calls for, a turn without effect found nothing to deliver, and every turn is one fewer to any target the journal holds |
| Subscription.Subscriber.Run | crates/deadcat-node/src/rpc_handler.rs:531-598 | over any number of turns and any growth of the journal: matching events to the watermark, one marker, then later ones, no gap or repeat, until an end item or a lost subscriber; the batches up to the watermark, one turn and the batches beyond it suffice for everything the journal held at the start |
| Inventory.UnallocatedExactly | crates/deadcat-rfq-provider/src/inventory.rs:500-523 | the eligible outputs are exactly the published ones not allocated |
| Inventory.Book.ObserveTime | crates/deadcat-rfq-provider/src/store.rs:1789-1807 | time never goes back: a look at the clock is accepted exactly if it is not before the last one |
| Inventory.Book.ImportBatch | crates/deadcat-rfq-provider/src/store.rs:196-235 | imports a whole scan, or nothing, exactly when its outpoints are distinct, time has not gone back and no recorded metadata changes |
| Inventory.Book.Replay | crates/deadcat-rfq-provider/src/store.rs:350-369 | an earlier request is answered again exactly when its digest matches and time has not gone back, without allocating; the time is kept either way |
| Inventory.Book.Reserve | crates/deadcat-rfq-provider/src/store.rs:372-548 | creates a reservation exactly when the request is new, time has not gone back, the scan is within its age, the revision is the drafted one and every input is recorded and free; otherwise no allocation changes; the time, committed first, is kept either way |
| Inventory.Coordinator.EligibleFromSnapshot | crates/deadcat-rfq-provider/src/inventory.rs:488-528 | the published outputs that are unallocated, at the book's revision; fails exactly on unsorted or unrecorded outputs |
| Inventory.Coordinator.Refresh | crates/deadcat-rfq-provider/src/inventory.rs:246-302 | a scan that is returned replaces the publication or, if rejected, leaves nothing published; one that is not returned changes nothing |
| Inventory.Coordinator.RequireFresh | crates/deadcat-rfq-provider/src/inventory.rs:530-559 | the publication exactly while time has not gone back and its age is below the maximum |
| Inventory.Coordinator.CurrentlyEligible | crates/deadcat-rfq-provider/src/inventory.rs:306-313 | exactly the unallocated outputs of the last scan, exactly while a recent, recorded publication exists |
| Inventory.Coordinator.CheckInputs | crates/deadcat-rfq-provider/src/inventory.rs:455-472 | accepts exactly drafts whose every input is an eligible output in full |
| Inventory.Coordinator.AdmitQuote | crates/deadcat-rfq-provider/src/inventory.rs:431-472 | admits exactly drafts made from the current publication, revision and eligible outputs, within their age |
| Inventory.Coordinator.ReserveFirmQuote | crates/deadcat-rfq-provider/src/inventory.rs:408-486 | a newly created quote uses only outputs of the last returned scan, unallocated when taken, younger than the maximum age, whatever other holders of the book do in between; with nothing published none is created |
| Inventory.TokensDiffer | crates/deadcat-rfq-provider/src/inventory.rs:269-301 | tokens of different publications never match |
| ChainSync.Coordinator.SharedAt | crates/deadcat-node/src/sync.rs:309-322 | a height is shared exactly when it is not above the pin and the source names the stored hash there; answered exactly when it is above the pin or both store and source know it |
| ChainSync.Coordinator.TipShared | crates/deadcat-node/src/sync.rs:301-305 | whether the source names the stored tip's hash at its height |
| ChainSync.Coordinator.SearchPinned | crates/deadcat-node/src/sync.rs:307-326 | for a steady source the search ends at the common depth with the pin still canonical |
| ChainStore.Store.WriteBlock | crates/deadcat-node/src/store.rs:1740-1794 | the whole new store after a block: tip, block, rows, undo row and pruned undo window |
| Interpreter.InsertAll | crates/deadcat-node/src/interpreter.rs:255-270 | inserting outpoints one by one fails exactly on a repeat |
| Interpreter.ClaimCreated | crates/deadcat-node/src/interpreter.rs:248-258 | the created contracts' claims, refused exactly when they conflict |
| Interpreter.ClaimOneUpdate | crates/deadcat-node/src/interpreter.rs:259-273 | one update's claims on top of the earlier ones, refused exactly when they conflict |
| MarketSpend.PairAndCollateral | crates/deadcat-contracts/src/interpret/binary_market.rs:1211-1249 | the kept part of a window is there exactly when both token outputs and, if any is held, the collateral output are |
| MarketSpend.CancelWindow | crates/deadcat-contracts/src/interpret/binary_market.rs:192-224 | a cancellation's whole window is there exactly when its kept part is and the burns read give its pairs |
| MarketSpend.RedemptionWindow | crates/deadcat-contracts/src/interpret/binary_market.rs:510-533 | a redemption's window is there exactly when the collateral left and the burn are |
| MarketSpend.DecodedFacts | crates/deadcat-contracts/src/interpret/binary_market.rs:114-152 | what decoding has established of its action: authorization, quantities and path |
| Composer.InputsTile | crates/deadcat-client/src/composition.rs:707-753 | the inputs of a contribution follow those of the ones before it |
| Composer.OutputsTile | crates/deadcat-client/src/composition.rs:756-760 | the outputs of a contribution follow those of the ones before it |
| Venue.OutputLands | crates/deadcat-client/src/composition.rs:756-843 | every output of a contribution is at its base plus its index, found under its id, compiled as specified |
| Venue.PositionsDiffer | crates/deadcat-client/src/composition.rs:762-767 | different output ids never share a position |
| Venue.SettledSums | crates/deadcat-client/src/venue.rs:325-330 | the amounts at the payment and receipt positions add up to the route's totals |
| Agreement.ViewSeesStage | crates/deadcat-node/src/interpreter.rs:306-335 | a view that reads back the last spend's outputs materializes the client's live outputs |
| Agreement.StepAgrees | crates/deadcat-node/src/interpreter.rs:277-304 | one interpreted spend is one step of the client's fold, with the same record, state and live outputs |
| Agreement.RolesAgree | crates/deadcat-client/src/validation.rs:541-595 | the roles the client reads off scripts are the roles the node stored |
| Subscription.Subscriber.Send | crates/deadcat-node/src/rpc_handler.rs:546-552 | an item is received, or the subscriber is lost |
| Inventory.Book.Interfere | crates/deadcat-rfq-provider/src/store.rs:1914-1947 | other holders may add records and requests, change allocations and observe time; records and requests stay, time does not go back, and any change of allocations raises the revision |
| Inventory.Coordinator.constructor | crates/deadcat-rfq-provider/src/inventory.rs:215-226 | a new coordinator has published nothing |
| Inventory.UnallocatedDistinct | crates/deadcat-rfq-provider/src/store.rs:268-272 | eligible outputs of a sorted scan have distinct outpoints |
| Recovery.PayoutIndexExactly | crates/deadcat-contracts/src/recovery.rs:88-91 | the payout table and its sixteen indices correspond one to one |
| Recovery.Encode | crates/deadcat-contracts/src/recovery.rs:86-112 | encodes exactly the valid hints, in 38 or 70 bytes |
| Recovery.DecodeOfEncoded | crates/deadcat-contracts/src/recovery.rs:86-150 | decoding undoes encoding on every valid hint |
| Recovery.EncodedOfDecode | crates/deadcat-contracts/src/recovery.rs:86-150 | re-encoding any accepted payload gives the same bytes |
| Recovery.RecoveryScript | crates/deadcat-contracts/src/recovery.rs:19-28 | the one-push script of a payload, which parses back |
| Recovery.ScriptRoundTrip | crates/deadcat-contracts/src/recovery.rs:19-42 | scripts and payloads correspond one to one |

## Left out

- Backfill of late registrations: its termination rests on progress rules of the store; the synchronization loop is modelled with none pending.
- Interpreter.InterpretTransaction: recovery hint rows and the synchronization state of records are not part of the interpretation compared.
- Interpreter.InterpretCanonicalBlock: the block's recovery hints are not collected.
- ChainStore.Store.InvalidateForRebuild: the event epoch that is rotated with it is not part of the store modelled.
- ChainStore.Store.ApplyBlock: hint, catch-up and event rows written with a block are not modelled.
- ChainStore.Store.WriteBlock: as for ApplyBlock.
- MarketSpend.InterpretSpend: the key-path, program-root and control-block checks stand behind the decoder.
- MarketSpend.FinalizedPlanIsExplained: of the executed covenant only its lock check is modelled.
- Inventory.Book.Replay: a replayed reservation whose deadline has passed is expired first; deadlines are not modelled.
- Ledger.CommitTxEffect: the history, script, asset and hint tables are not modelled, only contracts, owners and outputs.
- ChainSync.Coordinator.SyncToTip: a store without a tip, 32-bit overflow of heights and rebuilding from scratch are not modelled.
- ChainSync.Coordinator.Settle: whether a pass is repeated because the branch changed or because the pin was not confirmed is not told apart.
- Coordinator and input roles as separate types: a role is identified with its slot.
- Elliptic-curve commitments, range and surjection proofs, Schnorr checks and SHA-256: function values or recorded factors.
- Covenant compilation, witness decoding and execution of covenant programs: a decoder gives the claimed operation.
- MarketPlan.VerifyOutputs: compares asset, value and script; nonces and proofs are not part of the outputs modelled.
- Replay.UniqueDefiningInput: an issuance's entropy and the amount of its inflation keys are not modelled.
- Chronicle.VerifyDiscovered: hints arrive decoded, with their collateral resolved; the association of hint and contract is not recorded.
- Chronicle.StartNode: that the node's creation verifier is the pair `VerifyDeclared` and `VerifyDiscovered`, and its spend reader the modelled one, enters as the promises `Founds` and `Explained`.
- Replay.ReplayMarket: positions, block hashes and canonicity of the evidence are checked before it and not modelled.
- Composition.Validate: proposal fields that composing never sets (peg-in, issuance, proprietary data, versions) are not modelled.
- Locktime.OrderIsIrrelevant: which of several errors is reported may depend on the order.
- Venue.ValidateRoute: the constructors of requests and recipients, which only check single fields.
- Subscription.Subscriber.constructor: refusing a cursor of another epoch or ahead of the watermark happens before the loop starts.
- Inventory.Book.Reserve: quote limits per owner, deadlines, expiry, request digests and the quote's own contents.
- Network transport, command line, chain backends, key files, registration fetching and activation tables: input, output and table lookups.
