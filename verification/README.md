# Intertrain chain: ledger, replication, bridge and codecs

A Dafny model of the chain's deterministic ledger, of the nodes that replicate and finalise it, of the WETH bridge
between the Ethereum contract, the relayer and the chain, and of the encodings that all of them sign, hash and store.
`dafny verify dfyconfig.toml` checks it.

How it is laid out:

- `Core`, `Ledger`, `State`: the values on the chain; what each of the seven operation families does, as functions from
  a snapshot to the next; and the ledger object, whose methods update fields in place and are proved equal to those
  functions. A failing operation still returns a state, because bridge, swap, reserve and faucet operations write
  before they can fail.
- `NativeAccounting`, `RedeemGap`, `Genesis`, `MnaSolvency`, `TokenLedger`, `TokenHolds`, `Nonces`, `Programs`:
  conservation, solvency, token supply, freezes and pauses, exactly-once and program laws, for one operation and for
  every run. `Effects`, `Consent`, `ProgramStorage`: what one operation moves of every single balance, holding, reserve
  counter and stored value, and whose signature that takes.
- `Storage`, `Nodes`, `Node`: the block store, what a node does as functions, and the node object with its loops.
  `Replay`, `BlockReplay`, `ImportedRoots`, `Chain`, `ImportedLaws`: when a produced block replays to the producer's
  state, what the check of the state root is worth, what every run keeps of the stored chain, and the ledger laws
  carried over to imported blocks. `Schedule`, `TransactionIndex`, `Inclusion`, `Pending`, `Reopening`: whose turn a
  height is, which transactions the store knows, what a block carries of what was submitted, what stays pending when
  another node's block settles it, and which configurations open a store.
- `Consensus`, `Network`, `Agreement`, `Markers`, `Finality`, `Sync`, `CatchUp`: ballots and quorums, the message
  handlers, a network of honest nodes among faulty validators, the finality markers they store, when votes finalise a
  block, and followers that catch up.
- `Escrow`, `Relayer`, `WrappedEther`, `Bridge`, `Backing`, `BridgeGaps`, `DepositRows`, `Delivery`, `RelayerStalls`,
  `RecordWindow`, `SolQuote`: the contract, the relayer's table and loops, the whole bridge under any interleaving, when
  its promise holds and where it pays too much, which deposits, mints and burns the relayer works on, that what its table
  reports was done, and its quotes.
- `Merkle`, `Postcard`, `Versioned`, `Signing`, `Wallets`, `Arithmetic`, `Polymod`, `Regroup`, `Address`, `Package`:
  roots, wire format, stored layouts of every age, signing bytes, addresses and program packages.

What is assumed, always as a named condition of the theorem that uses it: block headers and hash pairs hash apart
(`Chain.HeadersHashApart`, `Merkle.PairsHashApart`); honest validators' votes cannot be forged
(`Agreement.Possible`); header signatures verify (`BlockReplay.HeaderSignaturesVerify`); the digest of a state's bytes
is collision free (`ImportedRoots.CollisionFree`); rows of other deposit sources start out untried
(`Delivery.StartsDetected`); the SDK's Bech32m library reads what the encoding writes
(`Wallets.ReadsBech32m`); the program engine never reports more gas than its limit (`NativeAccounting` and `Programs`,
through `Core.Metered`). Digests, signature checks, the program loader and the program engine are functions in
`Core.Env`; clocks, the fate of mint and release calls, and what other deposit sources answer are parameters.

Where the code does not do what its design says, the model follows the code: a theorem has the exact condition, and a
second one a run or an input on the failing side.

- A producer counts a duplicate as accepted and keeps what rejected operations wrote, while an importer refuses both.
  Replay is exact if and only if neither happened (`Replay.ReplayIsExact`); one burn of something nobody holds is enough
  to break it (`Replay.RejectedBurnIsNotReplayed`). `docs/NATIVE_TOKEN_OPERATIONS.md:69` promises that failed token
  operations change nothing; that holds, and `Replay.RejectedWrites` says which families differ.
- The state root of a chain without tokens and programs does not cover the reserve fields
  (`Versioned.RootsAgreeExactly`), so an importer can accept a block and end in another state than its producer, exactly
  when the uncovered fields differ (`ImportedRoots.AcceptedImportDivergesExactly`); a swap that cannot be paid does it
  (`ImportedRoots.RejectedSwapForks`).
- Redeeming adds amount and fee with a plain `+`. The account of native units stays exact if and only if the sum fits
  (`NativeAccounting.SwapAccounting`), which is certain up to 2^127 units. Over any accepted run the units never fall
  behind the account, and are equal to it if and only if no redemption that wraps was applied
  (`NativeAccounting.ExactAccounting`). From a genesis of two units a run of three accepted operations reaches one
  (`RedeemGap.WrappedRedemption`).
- Swap fees leave the payer and never reach the fee pool; they are a term of the account.
- A reserve release checks the reserve against backed MNA but not against wrapped USDC, and a bridge mint whose identity
  sits under a USDC key without being recognised as USDC adds no reserve. A run stays solvent if and only if each of
  these is within the margin at its turn (`MnaSolvency.RunsStaySolvent`); identities that the interface reads are never
  of that kind (`MnaSolvency.ParsedRunsStaySolvent`). Right after a mint of 10 no release of 10 is within the margin
  (`MnaSolvency.ReleaseAfterMint`), and neither is a first mint of USDC with other decimals
  (`MnaSolvency.MislabelledMintIsUnbacked`). On a producer a rejected burn also takes its amount from the margin
  (`MnaSolvency.RejectedBridgeMargin`, `MnaSolvency.RejectedBurnTakesMargin`).
- The bridge interface accepts the namespace of custom tokens. Holdings equal supply after an operation if and only if
  it is not a bridge operation applied to a token's key (`TokenLedger.StepBalanced`); such a mint from genesis leaves a
  holder of a token without supply (`TokenLedger.BridgedTokenHasNoSupply`). A frozen balance, and every balance of a
  paused token, stands still throughout a run if and only if no bridge operation is applied to that very key
  (`TokenHolds.FrozenBalanceConstant`, `TokenHolds.PausedTokenConstant`); a mint that the interface reads makes either
  grow (`TokenHolds.FrozenBalanceGrows`, `TokenHolds.PausedBalanceGrows`).
- Faucet transfers carry a nonce that nothing counts, so an importer applies the same one again while it fits
  (`Nonces.FaucetTransferRepeats`).
- The relayer sends every burn that is not wrapped SOL to the WETH contract. A release is harmless if and only if the
  burn was of WETH (`BridgeSystem.ReleaseMovesSlack`); an accepted burn of USDC is paid with somebody's ether
  (`BridgeGaps.UsdcBurnTakesEther`).
- A rejected burn leaves a record in the state of the producer that tried it, and the relayer reads records. An
  operation of any outcome keeps the bridge backed if and only if it is not a burn of WETH that is recorded without being
  held (`BridgeSystem.ChainKeepsSlackExactly`). Such a burn is paid (`BridgeGaps.RejectedBurnIsPaid`).
- The bridge theorem is about all runs, with both of these in them: the contract keeps its promise throughout if and only
  if what they take is spare at their turn (`Backing.BridgeStaysBacked`); without them it always does
  (`Backing.WethBurnsStayBacked`).
- All sources of deposits and burns share one table, keyed by an identity the depositor chooses. A deposit gets its own
  row if and only if nobody else's row was there first (`DepositRows.DepositTakenExactly`); otherwise it is lost
  (`DepositRows.SquattedDepositIsLost`).
- A deposit whose destination is not text ends the relayer's cycle before anything else is done. The cursor passes a
  block if and only if some cycle could read every deposit up to its own safe tip (`RelayerStalls.CursorPassesExactly`);
  with one that cannot be read no later cycle moves the cursor or does any work
  (`RelayerStalls.UnreadableDepositStalls`).
- A submitted mint is never sent again unless the chain cannot be asked. It stays as it is if and only if no cycle has
  settled it (`RelayerStalls.SubmittedMintWaitsExactly`), so one that the chain has lost stays for good
  (`RelayerStalls.LostMintIsNeverRetried`).
- The chain serves the thousand records with the largest identities. A recorded burn gets a row if and only if it is
  among them (`RecordWindow.BurnGetsRowExactly`); one below a thousand others does not
  (`RecordWindow.BuriedBurnIsNotRead`).
- A block takes what it carries out of the mempool of the node that imports it, and out of no other pool. Nothing that
  the ledger remembers is pending until such a block arrives, and then exactly if it carries a pending identity
  (`Pending.StepSettlesExactly`); the node's next block carries the operation again as a duplicate, and no node that holds
  the first block accepts it (`Pending.CarriedElsewhereForks`).
- The genesis block does not name the validators. A stored chain opens under another configuration if and
  only if chain id, genesis time and first state root agree (`Reopening.ReopenedExactly`), so it opens under any list of
  validators (`Reopening.ValidatorsAreNotChecked`).
- The relayer's backoff is limited to an hour by the code and to 1024 seconds by its own exponent
  (`Delivery.PutBackWaits`).
- The first vote for a slot fixes the chain id of its ballot, even if the vote is refused, and votes counted before the
  block arrived are duplicates afterwards. A quorum of valid votes finalises the latest block if and only if neither is
  in the way (`Finality.QuorumFinalisesExactly`), at any honest node in every state the network reaches
  (`Finality.ReachedQuorumFinalises`); one unsigned vote is enough to be in the way
  (`Finality.ForeignVoteBlocksFinality`).
- The hash of a block covers its header only, so being on the same chain is stated with bodies (`Sync.Behind`).
- The web wallet's decoder uses the prefix in the checksum and does not compare it with `mna`, so its round trip holds
  for every nonempty prefix (`Address.AddressRoundTrip`), and it signs where the SDK refuses
  (`Wallets.WalletsAgreeExactly`).
- The package decoder ignores the two reserved header bytes and the spelling of the manifest
  (`Package.ReencodesExactly`), so every package has a twin that is not what the encoder writes
  (`Package.ReservedByteIsLost`).

## Model

| member | source | states |
|---|---|---|
| `LedgerState.State.ApplyTransaction` | crates/wsc-state/src/lib.rs:1539-1618 | the fields after a transfer, accepted or not, are those of the specified step, which `Effects.TransferArrives` and `Effects.RejectedMovesNothing` are about; the faucet branch keeps the credit when the fee pool then overflows |
| `LedgerState.State.ApplyAssetOperation` | crates/wsc-state/src/lib.rs:782-844 | a bridge operation marks and records before it can fail |
| `LedgerState.State.BookAssetOperation` | crates/wsc-state/src/lib.rs:801-843 | the part after the marks: reserve counters, wallet entry, balance, in that order |
| `LedgerState.State.ApplyMnaSwap` | crates/wsc-state/src/lib.rs:701-780 | the replay id stays in the live state when the swap fails; everything else is adopted only on success |
| `LedgerState.State.ExecuteSwap` | crates/wsc-state/src/lib.rs:703-779 | mint and redeem on the clone, with the unchecked addition in redeem wrapping |
| `LedgerState.State.BuyMna` | crates/wsc-state/src/lib.rs:727-747 | the branch that mints: collateral, balance, reserve, in that order |
| `LedgerState.State.SellMna` | crates/wsc-state/src/lib.rs:748-774 | the branch that redeems, with the unchecked addition |
| `LedgerState.State.ApplyMnaReserveOperation` | crates/wsc-state/src/lib.rs:561-649 | deposit and release on a clone, after the replay id was inserted |
| `LedgerState.State.ExecuteReserve` | crates/wsc-state/src/lib.rs:569-640 | which counters a deposit or a release moves for SOL and for USDC |
| `LedgerState.State.ApplyTokenOperation` | crates/wsc-state/src/lib.rs:949-970 | a token operation takes effect as a whole, which `Effects.AppliedMovesHoldings` and `Consent.OrdersTakeEffect` are about, or changes nothing |
| `LedgerState.State.ExecuteToken` | crates/wsc-state/src/lib.rs:1189-1316 | fee, nonce, action and record of a token operation, in order |
| `LedgerState.State.AdjustTokenBalance` | crates/wsc-state/src/lib.rs:1375-1396 | one balance of one token moves by the amount, or the call fails |
| `LedgerState.State.ApplyProgramOperation` | crates/wsc-state/src/lib.rs:992-1006 | a program operation is adopted as a whole or not at all |
| `LedgerState.State.RunAndSettleProgram` | crates/wsc-state/src/lib.rs:1073-1187 | action, charged fee, debit with a plain subtraction, receipt |
| `LedgerState.State.CreditDevnet` | crates/wsc-state/src/lib.rs:1415-1422 | the credited balance and nothing else |
| `Genesis.FromGenesis` | crates/wsc-state/src/lib.rs:262-307 | opens exactly when allocations are distinct and add up to the declared supply, and then holds exactly them |
| `NativeAccounting.SwapAccounting` | crates/wsc-state/src/lib.rs:701-780 | an applied swap keeps the account exact if and only if a redemption's amount and fee fit in 128 bits together; otherwise 2^128 units too many remain |
| `RedeemGap.WrappedRedemption` | crates/wsc-state/src/lib.rs:748-757 | from a genesis of two units three accepted operations redeem 2^127 - 1 units for nothing, and the account is off |
| `NativeAccounting.StepAccounting` | crates/wsc-state/src/lib.rs:1539-1618 | every accepted operation of every family moves balances + fee pool + burned swap fees - backed MNA by what it issues, plus 2^128 for an applied redemption that wraps |
| `NativeAccounting.ExactAccounting` | crates/wsc-state/src/lib.rs:701-780 | over every accepted run the units never fall behind what was issued, and equal it if and only if no redemption that wraps was applied |
| `NativeAccounting.SmallSupplyAccounting` | crates/wsc-state/src/lib.rs:739-757 | on runs that never exceed 2^127 units the account is exact without any condition on the operations |
| `NativeAccounting.RedeemCannotWrap` | crates/wsc-state/src/lib.rs:739-757 | a validated redemption cannot wrap while at most 2^127 units exist |
| `NativeAccounting.ChargedWithinAuthorised` | crates/wsc-state/src/lib.rs:1045-1158 | the fee charged to a program operation never exceeds the one checked against the balance |
| `Genesis.ChainAccounting` | crates/wsc-state/src/lib.rs:262-307 | from a genesis configuration: all units cover declared supply + issuance + backed MNA, and equal it if and only if no redemption that wraps was applied |
| `Effects.AppliedMovesNative` | crates/wsc-state/src/lib.rs:1539-1618 | an applied operation of any family moves every account's native balance by exactly the change its text announces, and the fee pool by its fee |
| `Effects.TransferArrives` | crates/wsc-state/src/lib.rs:1597-1615 | an applied wallet transfer raises the receiver by the amount and lowers the sender by amount and fee; to oneself it costs the fee; a faucet transfer raises the receiver and no one pays; no other balance moves |
| `Effects.AppliedMovesHoldings` | crates/wsc-state/src/lib.rs:1246-1301 | under every asset key every account's holding moves by exactly its change: a token transfer takes from the signer and gives to the recipient, a mint gives to the recipient only, a burn takes from the signer only; bridge and swap operations likewise |
| `Effects.AppliedMovesReserve` | crates/wsc-state/src/lib.rs:561-649 | an applied operation enters exactly its amounts in the four reserve counters |
| `Effects.RejectedMovesNothing` | crates/wsc-state/src/lib.rs:1559-1569 | a rejected operation of any family moves no holding and no balance, except the faucet credit whose fee overflows the pool |
| `Effects.StatementAddsUp` | crates/wsc-state/src/lib.rs:1539-1618 | over every accepted run every account's balance, and its holding under every key, is the opening one plus the changes of the run |
| `Consent.AppliedIsSigned` | crates/wsc-state/src/lib.rs:1482-1537 | whatever is applied was signed by the account whose nonce it uses, and a swap keeps to two micro-dollars for one |
| `Consent.NobodyElseSpends` | crates/wsc-state/src/lib.rs:1482-1537 | whatever the outcome, a native balance falls only with its owner's signature, and a holding only with it or by a bridge burn against that account |
| `Consent.NoConsentNoLoss` | crates/wsc-state/src/lib.rs:1482-1537 | over any list of operations, rejected ones included, an account that consents to nothing loses nothing |
| `MnaSolvency.UsdcKeySupported` | crates/wsc-rpc/src/lib.rs:1762-1785 | an asset identity the parser can return sits under a USDC key only if it is supported USDC |
| `MnaSolvency.BridgeMargin` | crates/wsc-state/src/lib.rs:782-844 | an applied bridge mint or burn leaves the margin of the reserve alone, although burns check no collateral, if and only if its identity is not a mislabelled USDC key |
| `MnaSolvency.RejectedBridgeMargin` | crates/wsc-state/src/lib.rs:801-836 | what a rejected bridge operation leaves behind: the reserve counters of supported USDC have moved |
| `MnaSolvency.RejectedBurnTakesMargin` | crates/wsc-state/src/lib.rs:801-836 | from genesis a rejected burn of USDC leaves the producer insolvent by its amount |
| `MnaSolvency.MislabelledMintIsUnbacked` | crates/wsc-state/src/lib.rs:782-844 | from genesis an applied mint of the USDC contract with other decimals leaves the chain insolvent by its amount |
| `MnaSolvency.SwapMargin` | crates/wsc-state/src/lib.rs:701-780 | swaps never move it, and in a solvent state no mint is refused for lack of reserve, saturating arithmetic included |
| `MnaSolvency.ReserveMargin` | crates/wsc-state/src/lib.rs:561-649 | what a deposit adds to the margin and a release takes from it |
| `MnaSolvency.ReleaseKeepsSolvencyExactly` | crates/wsc-state/src/lib.rs:608-640 | an applied release keeps the chain solvent if and only if its amount is within the margin |
| `MnaSolvency.ReleaseAfterMint` | crates/wsc-state/src/lib.rs:608-640 | after a bridge mint of 10 USDC a release of 10 is applied and leaves the wrapped USDC unbacked |
| `MnaSolvency.ConversionIsExact` | crates/wsc-state/src/lib.rs:519-531 | the wrapping sum in the conversion check is the true sum |
| `MnaSolvency.StepMargin` | crates/wsc-state/src/lib.rs:494-503 | an applied operation of any family takes exactly its draw from the margin: the amount of a release or of a mislabelled mint, else nothing |
| `MnaSolvency.RunsStaySolvent` | crates/wsc-state/src/lib.rs:494-503 | wrapped USDC + 2 * backed MNA <= net verified reserve throughout a run if and only if every draw is within the margin at its turn |
| `MnaSolvency.ParsedRunsStaySolvent` | crates/wsc-rpc/src/lib.rs:1762-1785 | with identities the interface reads, a run stays solvent throughout if and only if every release is within the margin at its turn, and always without releases |
| `TokenLedger.CustomKeysDiffer` | crates/wsc-core/src/lib.rs:452-459 | token keys coincide only for the same token and symbol |
| `TokenLedger.ParsedTokenKey` | crates/wsc-rpc/src/lib.rs:1762-1785 | of the identities the bridge interface reads, exactly those in the namespace of custom tokens with a token reference sit under token keys |
| `TokenLedger.TokenActionBalanced` | crates/wsc-state/src/lib.rs:1216-1302 | no token action meets a balance overflow, and burning never meets a supply below the balance, in a balanced state |
| `TokenLedger.BridgeBalancedExactly` | crates/wsc-state/src/lib.rs:782-844 | a bridge operation keeps holdings equal to supply if and only if it is not applied to the key of a custom token |
| `TokenLedger.StepBalanced` | crates/wsc-state/src/lib.rs:1189-1316 | every other operation, accepted or not, keeps holdings equal to supply for every token, and none meets a token balance overflow |
| `TokenLedger.RunsStayBalanced` | crates/wsc-state/src/lib.rs:1189-1302 | holdings add up to a supply within its cap throughout a run if and only if no bridge operation is applied to the key of a custom token |
| `TokenLedger.BridgedTokenHasNoSupply` | crates/wsc-rpc/src/lib.rs:1762-1785 | the interface reads `intertrain:USDC:token:<id>`, the mint is applied, and the token has holders and no supply |
| `TokenHolds.StepHolds` | crates/wsc-state/src/lib.rs:1246-1302 | what one operation of any family leaves untouched on frozen accounts and paused tokens; only bridge operations on the token's own key are excused |
| `TokenHolds.BridgeMovesBalanceExactly` | crates/wsc-state/src/lib.rs:815-843 | an applied bridge operation moves a token balance, held or not, if and only if it is on that account and that token's key |
| `TokenHolds.FrozenBalanceConstant` | crates/wsc-state/src/lib.rs:1398-1413 | until it is unfrozen, a frozen account's balance stands still throughout a run if and only if no bridge operation is applied to that account and key |
| `TokenHolds.FrozenBalanceGrows` | crates/wsc-state/src/lib.rs:815-843 | an applied mint, under an identity the interface reads, raises a frozen account's balance |
| `TokenHolds.PausedTokenConstant` | crates/wsc-state/src/lib.rs:1318-1348 | until it is unpaused, supply and all balances of a paused token stand still throughout a run if and only if no bridge operation is applied to its key |
| `TokenHolds.PausedBalanceGrows` | crates/wsc-state/src/lib.rs:815-843 | an applied mint raises a balance of a paused token and not its supply |
| `Consent.TokensAreGoverned` | crates/wsc-state/src/lib.rs:1246-1361 | a token never disappears, its supply grows only by its mint authority and shrinks only by a holder's own burn, freezes change only by its freeze authority, and everything else about it only by its creator |
| `Consent.CreatedAsSigned` | crates/wsc-state/src/lib.rs:1221-1245 | a created token appears under its own identity with the terms and the initial supply that its creator signed |
| `Consent.OrdersTakeEffect` | crates/wsc-state/src/lib.rs:1246-1367 | every applied order has taken effect on the token it names, and is on record under its identity |
| `Nonces.StepCounts` | crates/wsc-state/src/lib.rs:722-725 | an applied operation uses its signer's nonce and raises it by one; no other nonce moves |
| `Nonces.DuplicateChangesNothing` | crates/wsc-state/src/lib.rs:795-797 | an operation reported as a duplicate changes nothing |
| `Nonces.NonceCountsApplied` | crates/wsc-state/src/lib.rs:1577-1614 | every nonce counts exactly the applied operations its address signed |
| `Nonces.NoSecondEffect` | crates/wsc-state/src/lib.rs:1525-1532 | whatever run follows, a signed operation is never applied a second time |
| `Nonces.FaucetTransferRepeats` | crates/wsc-state/src/lib.rs:1559-1569 | an applied faucet transfer is applied again if and only if receiver and fee pool have room, but for a new account of the faucet itself |
| `Nonces.BridgeIdOnce` | crates/wsc-state/src/lib.rs:795-800 | a bridge operation identity moves balances at most once |
| `Programs.StepKeepsPrograms` | crates/wsc-state/src/lib.rs:1008-1187 | open and closed identities stay apart, stored packages stay readable, closed ones stay closed, over every operation |
| `Programs.ClosedStaysClosed` | crates/wsc-state/src/lib.rs:1137-1149 | a closed identity never reopens on any run |
| `Programs.CallFailsExactly` | crates/wsc-state/src/lib.rs:1097-1118 | a call fails for no gas or no program only: decoding the stored package cannot fail |
| `Programs.StoredPackagesDecode` | crates/wsc-state/src/lib.rs:1073-1096 | in every state a run reaches, the bytes stored for an open program decode, verify, and carry that very program identity |
| `Programs.FeeIsPaidExactly` | crates/wsc-state/src/lib.rs:1151-1187 | the receipt's fee leaves the payer without wrapping, reaches the pool, and is within what was authorised |
| `ProgramStorage.ProgramTakesEffect` | crates/wsc-state/src/lib.rs:1008-1187 | an applied deploy, store, call or close does exactly what its kind says to the programs, and leaves a receipt with what was reported |
| `ProgramStorage.StoredIsRead` | crates/wsc-state/src/lib.rs:1119-1136 | a stored value is read back under its key, whatever operations follow, until something is stored there or the program is closed |
| `Package.RoundTrip` | crates/wsc-program/src/lib.rs:88-140 | a package that verifies is what its encoding decodes to |
| `Package.ReencodesExactly` | crates/wsc-program/src/lib.rs:109-140 | re-encoding a decoded package gives its bytes back if and only if the reserved bytes are zero and the manifest is spelled as the encoder does |
| `Package.ReservedByteIsLost` | crates/wsc-program/src/lib.rs:109-140 | every encoding with a reserved byte set decodes to the same package and is not what the encoder writes |
| `Storage.Store.Commit` | crates/wsc-storage/src/lib.rs:362-395 | block, height, state, transaction index and markers after a commit; that the index is complete is `TransactionIndex.RunsKeepIndex` |
| `Storage.Store.MarkFinalized` | crates/wsc-storage/src/lib.rs:244-259 | the marker moves to a stored block of that height, never back |
| `Storage.Store.EnsureGenesis` | crates/wsc-storage/src/lib.rs:140-182 | an existing store is checked against chain id and genesis hash, an empty one is initialised |
| `TransactionIndex.RunsKeepIndex` | crates/wsc-storage/src/lib.rs:380-387 | over every run of a node a transaction identity is in the index if and only if some stored block carries it, under its own identity |
| `TransactionIndex.UnstoredExactly` | crates/wsc-node/src/lib.rs:473-478 | production tries exactly the mempool transactions that no stored block carries, in their order |
| `TransactionIndex.NothingCarriedAgain` | crates/wsc-node/src/lib.rs:370-377 | whatever a node did since an empty store, its next block carries nothing that its chain carries and nothing twice, faucet transfers included, and a submission of what the chain carries is refused |
| `TransactionIndex.OwnChainsPlaceOnce` | crates/wsc-node/src/lib.rs:453-531 | on a chain that one node produced no transaction has two places |
| `NodeObject.Mempool.Admit` | crates/wsc-node/src/lib.rs:124-134 | capacity, validation and duplicate check, in that order |
| `NodeObject.Mempool.RemoveIds` | crates/wsc-node/src/lib.rs:141-151 | carried transactions leave, the others keep their order |
| `NodeObject.Node.KeepTransfers` | crates/wsc-node/src/lib.rs:476-487 | the mempool loop keeps what the ledger accepts, skipping stored transactions |
| `NodeObject.Node.KeepBridges` | crates/wsc-node/src/lib.rs:488-492 | duplicates count as accepted; rejected operations leave what they wrote |
| `NodeObject.Node.BuildFrom` | crates/wsc-node/src/lib.rs:476-520 | six pools in order, each on the state the previous one left |
| `NodeObject.Node.ProduceBlock` | crates/wsc-node/src/lib.rs:453-531 | the block, the stored chain and the emptied pools after producing; whose turn it is is `Schedule.OnlyOnesTurn`, what is carried `Inclusion.CarriesAcceptedExactly` |
| `NodeObject.Node.CommitBlock` | crates/wsc-node/src/lib.rs:726-809 | header, transaction root, state root and signature of a sealed block |
| `NodeObject.Node.ImportBlock` | crates/wsc-node/src/lib.rs:551-693 | an imported block is stored with its state, or nothing changes; a new one is in turn and signed, which is `Schedule.ImportedInTurn` |
| `NodeObject.Node.ReplayAll` | crates/wsc-node/src/lib.rs:614-672 | the six replay loops accept exactly what the ledger applies, and return the identities of the transaction root |
| `NodeObject.Node.FinalizeVotes` | crates/wsc-node/src/lib.rs:695-724 | only a valid quorum for the latest block moves the marker |
| `NodeObject.Node.Faucet` | crates/wsc-node/src/lib.rs:533-549 | an unsigned block that credits on devnet chains only |
| `NodeObject.Node.SubmitTransaction` | crates/wsc-node/src/lib.rs:370-377 | stored, full, invalid and pending transactions are refused |
| `NodeObject.Node.SubmitAssetOperation` | crates/wsc-node/src/lib.rs:379-397 | a bridge identity is pending at most once |
| `NodeObject.Node.SubmitTokenOperation` | crates/wsc-node/src/lib.rs:399-413 | a token operation is pending at most once, and only if the ledger validates it |
| `NodeObject.Node.SubmitMnaSwap` | crates/wsc-node/src/lib.rs:415-428 | the same for swaps, looked up in the records |
| `NodeObject.Node.SubmitMnaReserveOperation` | crates/wsc-node/src/lib.rs:430-447 | the same for reserve operations |
| `NodeObject.Node.SubmitProgramOperation` | crates/wsc-node/src/lib.rs:289-306 | the same for program operations, tried on a copy of the state |
| `NodeObject.OpenNode` | crates/wsc-node/src/lib.rs:198-239 | opening checks genesis, chain id and state root against the latest block |
| `Reopening.OpenedIsConsistent` | crates/wsc-node/src/lib.rs:198-239 | whatever the store, a node that opens stands on the stored latest block with a state under its root, in a store of its own genesis |
| `Reopening.ReopenedExactly` | crates/wsc-storage/src/lib.rs:148-168 | a chain opens under another configuration if and only if chain id, genesis time and first state root agree, and then with the same chain and state; the store never changes |
| `Reopening.ValidatorsAreNotChecked` | crates/wsc-node/src/lib.rs:832-852 | a chain opens under any list of validators, and then exactly the validator scheduled by that list may propose |
| `Schedule.ScheduleRotates` | crates/wsc-consensus/src/lib.rs:196-206 | among as many consecutive heights as there are validators the schedule goes once through the list, and heights divisible by their number belong to the first |
| `Schedule.OneTurnEach` | crates/wsc-consensus/src/lib.rs:196-206 | with different keys every validator has exactly one turn among any n consecutive heights |
| `Schedule.OnlyOnesTurn` | crates/wsc-node/src/lib.rs:319-330 | a key produces at the next height if and only if it is its turn; otherwise nothing happens |
| `Schedule.ImportedInTurn` | crates/wsc-node/src/lib.rs:577-620 | a newly imported block with a proposer is of the validator scheduled for its height and carries a valid signature over its header; its roots are right |
| `Schedule.ProposersTakeTurns` | crates/wsc-node/src/lib.rs:577-620 | over every run of a node from an empty store every stored block keeps to its turn, and with different keys two blocks of one validator are whole rounds apart |
| `Inclusion.CarriesAcceptedExactly` | crates/wsc-node/src/lib.rs:453-531 | a produced block carries exactly the pending operations that the ledger accepts at their turn, in their order, and its producer ends in the state after all of them |
| `Inclusion.TakenIsPending` | crates/wsc-node/src/lib.rs:287-448 | a submission that is taken puts the operation at the end of its family's pool under its identity; one that is refused does nothing |
| `Inclusion.SubmittedIsCarriedOut` | crates/wsc-node/src/lib.rs:453-531 | what the ledger would apply now and no block carries yet is taken, carried by the next block of a proposer in turn, and applied |
| `Inclusion.RunsKeepRecordsMarked` | crates/wsc-state/src/lib.rs:701-780 | over every run of a node, rejected operations included, only marked identities have records, which the previous row relies on |
| `Inclusion.FaucetPaysOnDevnetsOnly` | crates/wsc-node/src/lib.rs:533-549 | the faucet pays if and only if the chain is a devnet and the balance has room; it raises that balance alone and appends a block that carries nothing |
| `Inclusion.ContainsAnywhere` | crates/wsc-node/src/lib.rs:534-536 | a chain is a devnet if and only if its name has the word anywhere in it |
| `Pending.RunsKeepMempool` | crates/wsc-node/src/lib.rs:141-150 | over every run the mempool holds nothing that the chain carries, and no more than its limit |
| `Pending.StepSettlesExactly` | crates/wsc-node/src/lib.rs:682-689 | pending bridge, token and program operations are unknown to the ledger until a block is imported that carries one of their identities |
| `Pending.SettledIsCarriedAgain` | crates/wsc-node/src/lib.rs:484-500 | a pending operation that the ledger remembers is carried again by the next block, and no node that remembers it accepts that block |
| `Pending.CarriedElsewhereForks` | crates/wsc-node/src/lib.rs:577-689 | an operation submitted to two nodes: after importing the first one's block, the second one's own next block is refused by every node on that chain |
| `Replay.StepMarks` | crates/wsc-state/src/lib.rs:795-800 | one step remembers its own identity at most and forgets none |
| `Replay.RejectedWrites` | crates/wsc-state/src/lib.rs:566-566 | a rejected operation has changed the state exactly when it had passed the checks before its first write |
| `Replay.StepTraced` | crates/wsc-state/src/lib.rs:701-705 | a trace that every applied operation moves by an amount of its own, duplicates leave alone and rejected writes push up |
| `Replay.ReplayBounds` | crates/wsc-node/src/lib.rs:484-520 | if the replay of what was kept goes through, the producer's trace moved as much only if nothing dirty happened |
| `Replay.ReplayIsExact` | crates/wsc-node/src/lib.rs:453-531 | replaying what the producer kept gives its state if and only if every rejection came before its first write and no duplicate was accepted |
| `Replay.RejectedBurnIsNotReplayed` | crates/wsc-state/src/lib.rs:795-836 | on a fresh chain one burn that nobody holds: what was kept replays, to another state than the producer's |
| `BlockReplay.BuildIsOnePass` | crates/wsc-node/src/lib.rs:476-520 | the six production loops are one pass over the pending operations |
| `BlockReplay.ReplayBlockIsOnePass` | crates/wsc-node/src/lib.rs:619-672 | the six import loops are one pass over the block's operations |
| `BlockReplay.ProducedBlockReplaysExactly` | crates/wsc-node/src/lib.rs:726-809 | the same equivalence for produced blocks |
| `BlockReplay.ProducedHeaderPasses` | crates/wsc-node/src/lib.rs:577-612 | which proposals an importer lets through: scheduled validators, or unsigned where the chain allows it |
| `BlockReplay.ImportReproduces` | crates/wsc-node/src/lib.rs:551-693 | a node in the producer's state accepts the block and ends in the producer's state if and only if the proposal is allowed and the pools were clean |
| `ImportedRoots.ImportAcceptsExactly` | crates/wsc-node/src/lib.rs:674-686 | an importer accepts if and only if the proposal is allowed, the block replays, and the outcome agrees with the producer on the fields the root covers |
| `ImportedRoots.AcceptedImportDivergesExactly` | crates/wsc-state/src/lib.rs:1424-1480 | after an accepted import the states differ exactly when the uncovered fields do, which is exactly when the pools were not clean |
| `ImportedRoots.RejectedSwapForks` | crates/wsc-state/src/lib.rs:701-705 | a swap that cannot be paid leaves its producer alone in another state, and every importer accepts the empty block |
| `Chain.ReplicaFollows` | crates/wsc-node/src/lib.rs:551-693 | the same for any two nodes, whatever runs brought them to the common state |
| `Chain.StepKeepsPools` | crates/wsc-node/src/lib.rs:379-447 | pending identities stay distinct |
| `Chain.NextBlockIsNew` | crates/wsc-node/src/lib.rs:556-559 | the hash of a block above the top is not stored yet |
| `Chain.StepKeepsChain` | crates/wsc-storage/src/lib.rs:362-395 | one block at every height, linked by parent hash, latest state under the latest root, finality on the chain, over every event |
| `Chain.RunsKeepChain` | crates/wsc-storage/src/lib.rs:140-182 | the same over every run; nothing stored is replaced and finality never moves back |
| `Chain.RestartLosesOnlyPools` | crates/wsc-node/src/lib.rs:198-239 | reopening a node's own store finds the same chain and state |
| `Chain.FreshNodeHasChain` | crates/wsc-storage/src/lib.rs:166-181 | an empty store starts such a chain |
| `ImportedLaws.ImportIsRun` | crates/wsc-node/src/lib.rs:614-672 | an imported block moves the ledger by an accepted run of its operations |
| `ImportedLaws.ImportedChainsAreLawful` | crates/wsc-node/src/lib.rs:614-693 | solvency, token balance and program laws hold in every state reached by importing blocks |
| `Consensus.VoteSet.Record` | crates/wsc-consensus/src/lib.rs:160-177 | valid votes are filed once per signer; the answer is whether a quorum is reached |
| `Consensus.CastKeepsSound` | crates/wsc-consensus/src/lib.rs:160-177 | ballots count distinct members' valid votes for one block |
| `Consensus.QuorumIsTwoThirds` | crates/wsc-consensus/src/lib.rs:81-83 | the saturating test is the two-thirds test |
| `Consensus.QuorumsIntersect` | crates/wsc-consensus/src/lib.rs:81-83 | two quorums share at least a third of the validators |
| `Network.Connection.ReceiveBlocks` | crates/wsc-network/src/lib.rs:224-276 | blocks are imported in order; votes go out only after all were accepted; a full batch asks for more |
| `Network.Connection.ReceiveVote` | crates/wsc-network/src/lib.rs:292-326 | a vote is counted in its slot and a quorum is handed to the node |
| `Network.Connection.ServeRange` | crates/wsc-network/src/lib.rs:367-388 | ordered ranges of at most 128 steps are served from the store |
| `Agreement.ImportAllKeeps` | crates/wsc-network/src/lib.rs:251-256 | an accepted message leaves every one of its blocks on the chain |
| `Agreement.NewVotesAreBacked` | crates/wsc-network/src/lib.rs:224-276 | a vote that goes out is for a block the node holds at that height, in round 0 |
| `Agreement.EveryBlockIsVotedFor` | crates/wsc-network/src/lib.rs:224-268 | a node with a key answers an accepted message with its signed vote for every block in it, and holds each of them |
| `Agreement.CastIsHonest` | crates/wsc-network/src/lib.rs:292-318 | honest validators' votes in a ballot were really sent |
| `Agreement.CertificateHolds` | crates/wsc-node/src/lib.rs:695-724 | a finalised block is on the finaliser's chain and signed by a quorum |
| `Agreement.NextKeeps` | crates/wsc-network/src/lib.rs:213-326 | every move of the network keeps chains, votes, ballots and certificates in order |
| `Agreement.OneVotePerHeight` | crates/wsc-network/src/lib.rs:224-276 | an honest validator votes in round 0 and for one block at each height |
| `Agreement.FinalityIsOneChain` | crates/wsc-node/src/lib.rs:695-724 | a node that finalised at or above a height has on its chain what any honest node finalised there |
| `Agreement.HonestNodesAgree` | crates/wsc-consensus/src/lib.rs:81-83 | the same in every run from the start with fewer than a third of the validators faulty; in particular no two blocks at one height |
| `Markers.StoredMarkersAgree` | crates/wsc-storage/src/lib.rs:244-259 | in every run, if one honest node's stored marker is not above another's, the other has that finalised block on its chain |
| `Finality.FinalisedIsCertified` | crates/wsc-node/src/lib.rs:695-724 | a ballot from anywhere, filed under its signers, moves the marker if and only if it holds valid signatures of a quorum of members for the latest block; otherwise nothing changes |
| `Finality.QuorumFinalisesExactly` | crates/wsc-network/src/lib.rs:292-318 | valid votes of a quorum for the latest block finalise it if and only if their slot was not opened under another chain id and some vote is new |
| `Finality.ReachedQuorumFinalises` | crates/wsc-network/src/lib.rs:292-318 | the same at any honest node in every state that a run of the network reaches |
| `Finality.ForeignVoteBlocksFinality` | crates/wsc-network/src/lib.rs:299-310 | one refused vote with another chain id, and no valid votes of that round finalise the block at this node |
| `Sync.StoredRange` | crates/wsc-network/src/lib.rs:367-388 | a served range is exactly the chain's blocks at those heights |
| `Sync.BatchAdvances` | crates/wsc-network/src/lib.rs:251-256 | one batch brings the follower to the end of the range and leaves the rest importable |
| `Sync.SyncConverges` | crates/wsc-network/src/lib.rs:173-200 | a follower of an importable chain asks gap / 129 + 1 times, only for ranges that are served, and ends on the peer's chain and state |
| `CatchUp.StepStaysImportable` | crates/wsc-node/src/lib.rs:453-531 | importing, counting, restarting and clean production keep a chain importable |
| `CatchUp.FollowerCatchesUp` | crates/wsc-network/src/lib.rs:213-268 | from a common point a follower always catches up with a peer that only took replayable steps |
| `Escrow.WethBridge.Deposit` | contracts/ethereum/IntertrainWethBridge.sol:24-29 | a deposit identity is used once and its value is held |
| `Escrow.WethBridge.Release` | contracts/ethereum/IntertrainWethBridge.sol:31-39 | a release is paid once, within the balance, and a failing transfer leaves no mark |
| `Escrow.WethBridge.Receive` | contracts/ethereum/IntertrainWethBridge.sol:41-41 | a plain transfer adds to the balance and nothing else |
| `Escrow.ContractConserves` | contracts/ethereum/IntertrainWethBridge.sol:24-41 | whoever calls in whatever order, the contract holds what came in less what it paid out, no identity is deposited or paid twice, and it pays only what the relayer ordered to whom the relayer said |
| `Relayer.RelayerProcess.DiscoverDeposits` | ops/wsc-relayer.py:160-187 | rows for the deposits of a range, existing rows untouched, stopped by an unreadable destination |
| `Relayer.RelayerProcess.DiscoverBurns` | ops/wsc-relayer.py:404-419 | rows for the chain's burns |
| `Relayer.RelayerProcess.ScanChain` | ops/wsc-relayer.py:576-586 | the cursor passes a range only after all of it was read |
| `Relayer.RelayerProcess.SelectDue` | ops/wsc-relayer.py:525-530 | the fifty oldest due rows, oldest first, or all if there are fewer |
| `Relayer.RelayerProcess.ProcessOperations` | ops/wsc-relayer.py:525-543 | exactly those rows are attempted once each, in that order, failures put back with a delay; what an attempt sends is `Delivery.AttemptSendsMint` and `Delivery.AttemptPaysRelease` |
| `Relayer.RelayerProcess.ConfirmSubmitted` | ops/wsc-relayer.py:545-558 | submitted rows complete, or are retried when the chain cannot be asked |
| `Relayer.RelayerProcess.RunCycle` | ops/wsc-relayer.py:570-600 | one turn of the loop: scan, burns, attempts, confirmations; if the scan fails nothing else happens |
| `Delivery.AttemptSendsMint` | ops/wsc-relayer.py:456-493 | an attempt reports an inbound row submitted if and only if it could be read and the call was delivered and acknowledged, and then the mint with its identity, asset, address and amount has been sent; otherwise the row is put back |
| `Delivery.AttemptPaysRelease` | ops/wsc-relayer.py:496-513 | an attempt reports a release submitted if and only if the destination is an address, the call went through and the contract paid, and then it has paid that destination |
| `Delivery.PutBackWaits` | ops/wsc-relayer.py:515-522 | a row put back waits twice as long as before, up to 1024 seconds, and is not due until then |
| `Delivery.NextDelivers` | ops/wsc-relayer.py:525-558 | every move of the bridge leaves what the table reports true, every row named after its deposit or burn, and every payment matched with a recorded burn |
| `Delivery.WhatIsReportedIsDone` | ops/wsc-relayer.py:525-558 | over every run from the start: a submitted or completed mint of wrapped ether is in the outbox for the deposit of that identity, a submitted or completed release was paid to the destination of the recorded burn, and nothing else was paid |
| `Delivery.ServedDepositIsCredited` | crates/wsc-state/src/lib.rs:782-844 | the chain applies such a mint if and only if its identity is new and the balance has room, and then the depositor's address has the amount more of wrapped ether and no other holding has moved |
| `RelayerStalls.CycleTurns` | ops/wsc-relayer.py:570-600 | the cursor and the work of a cycle depend on the readability of the range alone |
| `RelayerStalls.CursorPassesExactly` | ops/wsc-relayer.py:160-187 | the cursor passes a block if and only if some cycle saw it and could read every deposit from the start to its own safe tip |
| `RelayerStalls.UnreadableDepositStalls` | ops/wsc-relayer.py:160-187 | one deposit that cannot be read, and no later cycle moves the cursor, reads a burn, attempts or confirms |
| `RelayerStalls.SubmittedMintWaitsExactly` | ops/wsc-relayer.py:545-558 | after any run a submitted mint is the row it was if and only if no cycle has settled it |
| `RelayerStalls.LostMintIsNeverRetried` | crates/wsc-rpc/src/lib.rs:1738-1760 | a mint the chain has lost is never sent again as long as the chain answers |
| `RecordWindow.BurnGetsRowExactly` | crates/wsc-rpc/src/lib.rs:1160-1163 | a recorded burn gets a row if and only if it had one or fewer than a thousand records have larger identities |
| `RecordWindow.BuriedBurnIsNotRead` | crates/wsc-rpc/src/lib.rs:1160-1163 | a burn below a thousand other records gets no row |
| `WrappedEther.StepMovesWeth` | crates/wsc-state/src/lib.rs:782-844 | whatever the outcome, only accepted mints and burns of WETH itself move its total |
| `BridgeSystem.ReleaseMovesSlack` | ops/wsc-relayer.py:496-512 | a release leaves the spare ether alone if the burn was of WETH, and otherwise takes its amount from what backs something else |
| `BridgeGaps.UsdcBurnTakesEther` | ops/wsc-relayer.py:496-512 | accepted mint and burn of USDC, and the relayer pays the burn with somebody's ether |
| `BridgeSystem.ChainKeepsSlackExactly` | crates/wsc-state/src/lib.rs:782-844 | an operation of any outcome, with relayed mints, keeps the slack if and only if it is not a burn recorded without being held (or a deposit under its identity makes up for it) |
| `BridgeGaps.RejectedBurnIsPaid` | crates/wsc-rpc/src/lib.rs:1160-1163 | a rejected burn is recorded, read and paid out of somebody's deposit |
| `BridgeSystem.NextKeeps` | ops/wsc-relayer.py:525-558 | every deposit, scan, retry, mint, burn, release and confirmation, and every chain operation of any outcome, keeps table, records, outbox and contract true to each other |
| `Backing.MoveSlack` | ops/wsc-relayer.py:496-512 | what each move takes from the ether that backs something else, exactly |
| `Backing.BridgeStaysBacked` | contracts/ethereum/IntertrainWethBridge.sol:24-39 | contract balance >= wrapped total + deposits to mint + recorded burns to release throughout a run, on producers as on importers, if and only if what is taken is spare at its turn |
| `Backing.WethBurnsStayBacked` | contracts/ethereum/IntertrainWethBridge.sol:24-39 | where burns released in ether are of WETH and held, it holds throughout every run |
| `Backing.ReleaseFailsExactly` | contracts/ethereum/IntertrainWethBridge.sol:31-39 | while the promise holds, a release for a WETH row fails only if it was made before, goes to the zero address, or is refused by the recipient |
| `DepositRows.DepositTakenExactly` | ops/wsc-relayer.py:160-187 | the cycle that passes a deposit leaves it with its own row, for good, if and only if no other row was under its identity before |
| `DepositRows.NoDepositSkipped` | ops/wsc-relayer.py:570-586 | every deposit below the cursor has a row under its identity, its own exactly if the row is for inbound wrapped ether |
| `DepositRows.SquattedDepositIsLost` | contracts/ethereum/IntertrainWethBridge.sol:24-29 | a deposit under a taken identity is held by the contract, passed by the cursor, and in no run gets a row of its own |
| `SolQuote.RefusedExactly` | ops/wsc-relayer.py:454-463 | a quote is refused only for collateral worth nothing or an odd amount |
| `SolQuote.QuotePasses` | ops/wsc-relayer.py:454-477 | every quote passes the chain's check without overflow and issues at most what the collateral is worth |
| `SolQuote.QuoteTakesShare` | ops/wsc-relayer.py:454-463 | a quote values the collateral to the micro-dollar, and keeps back the configured share of half of it, rounded down, never less than one part in two hundred and never more than one in twenty |
| `SolQuote.AcceptedSplitIsExact` | crates/wsc-state/src/lib.rs:519-549 | whatever the check accepts splits half the value exactly |
| `Merkle.MerkleRoot` | crates/wsc-crypto/src/lib.rs:206-224 | the layer-halving loop computes the root of the recursive tree |
| `Merkle.NodeOfLayer` | crates/wsc-crypto/src/lib.rs:211-222 | a node of the tree is a node one level lower over the next layer |
| `Merkle.EqualRootsEqualLeaves` | crates/wsc-crypto/src/lib.rs:206-224 | among lists of one length the root determines the list |
| `Merkle.RepeatedLastLeaf` | crates/wsc-crypto/src/lib.rs:215-215 | repeating an odd last leaf keeps the root, so the length condition is needed |
| `Postcard.VarintRoundTrip` | crates/wsc-core/src/lib.rs:470-476 | varints of every width read back, with whatever follows left over |
| `Postcard.RoundTrip` | crates/wsc-core/src/lib.rs:470-476 | every shape decodes to what was encoded |
| `Postcard.PrefixFree` | crates/wsc-core/src/lib.rs:470-476 | no encoding of a shape is a prefix of another |
| `Versioned.EveryLayoutDecodes` | crates/wsc-storage/src/lib.rs:75-100 | trying newest first still reads every layout as what it was |
| `Versioned.StoredBlocksDecode` | crates/wsc-storage/src/lib.rs:75-100 | blocks of seven, six and two fields decode with absent fields empty |
| `Versioned.StoredSnapshotsDecode` | crates/wsc-storage/src/lib.rs:287-360 | snapshots of nineteen, sixteen, seven and four fields decode with absent fields at their defaults |
| `Versioned.RootsAgreeExactly` | crates/wsc-state/src/lib.rs:1424-1480 | two states have the same root bytes if and only if they use the same layout and agree on its fields |
| `Versioned.LegacyRootIsKept` | crates/wsc-storage/src/lib.rs:287-360 | a snapshot of any age, stored in its layout, is restored as it was, with a root over no more than the stored fields |
| `Versioned.RestoredRootIsSame` | crates/wsc-state/src/lib.rs:309-355 | a state stored in any layout and read back has the same root if and only if the layout has the fields of its root, and is the same state if and only if the others were at their defaults |
| `Signing.VarintLoop` | packages/intertrain-wallet-sdk/src/index.ts:73-73 | the wallets' varint loop writes the wire format |
| `Wallets.WalletsAgreeExactly` | web-wallet/index.html:34-35 | for addresses as text, web wallet and SDK sign the same bytes if and only if both prefixes are `mna`; otherwise only the web wallet signs |
| `Signing.TransferIsWireFormat` | packages/intertrain-wallet-sdk/src/index.ts:106-108 | the SDK's transfer bytes are the chain's encoding |
| `Signing.TransfersAreUnambiguous` | packages/intertrain-wallet-sdk/src/index.ts:106-108 | equal transfer bytes mean equal transfers, field by field |
| `Signing.FieldsJoinBack` | packages/intertrain-wallet-sdk/src/index.ts:101-104 | taking an asset identity apart loses nothing |
| `Signing.SwapIsWireFormat` | packages/intertrain-wallet-sdk/src/index.ts:109-112 | the SDK's swap bytes are the chain's encoding |
| `Signing.SwapsAreUnambiguous` | packages/intertrain-wallet-sdk/src/index.ts:109-112 | equal swap bytes mean equal swaps, collateral text included |
| `Polymod.PolymodLoop` | web-wallet/index.html:34-34 | the bit loop computes the checksum of the specification |
| `Polymod.ChecksumIsLinear` | web-wallet/index.html:34-34 | the checksum is linear in state and symbols |
| `Polymod.ChecksumCloses` | web-wallet/index.html:34-34 | values followed by their checksum symbols check out, for every prefix and payload |
| `Polymod.OneSymbolMatters` | web-wallet/index.html:34-34 | changing one symbol changes the checksum |
| `Regroup.Convert` | web-wallet/index.html:34-34 | the accumulator loop regroups digits as the number they write says, 32-bit shifts included |
| `Regroup.RoundTrip` | web-wallet/index.html:34-34 | bytes to five-bit symbols and back is the identity for every length |
| `Address.AddressRoundTrip` | web-wallet/index.html:34-34 | decoding an encoded address gives its payload |
| `Address.TypoIsNoticed` | web-wallet/index.html:34-34 | an address with one symbol changed is refused |
| `Core.ParsePrintsBack` | crates/wsc-rpc/src/lib.rs:1762-1785 | reading an asset identity and printing its key is the identity |

## Left out

- HTTP and JSON-RPC dispatch, metrics, login sessions, command line, packaging scripts, HTML rendering: input, output and user interface; of the RPC crate only the asset-identity parser is modelled.
- Ed25519, SHA-256, key derivation, encrypted vaults, the WASM engine and validator, JSON: libraries, kept as functions.
- Solana: the program, its client, the SOL and SPL deposit scan and the USDC reserve contract; in the bridge they appear as inbound rows of other assets and as releases that do not touch the WETH contract; the relayer's cycle is modelled without that scan.
- Block heights, timestamps and Ethereum amounts are unbounded naturals; wrap-around or saturation of heights at 2^64 is not modelled.
- Memo, name and URI limits count characters where the source counts UTF-8 bytes; blankness of a text is over ASCII white space.
- The snapshot groups the source's nineteen fields by the operations that write them; the flat layout is in `Versioned`, where maps and sets are lists of entries and sorting is not modelled.
- Stored values are kept decoded in `Storage`; their bytes are the subject of `Versioned`, and database failures, flushes and crashes between two writes are not modelled.
- The reserve operation id is an unrelated digest function: the code checks it over an operation that contains the id, the RPC computes it over a zeroed one, and no collision-free digest satisfies both.
- Error texts, and which of several invalid votes is reported first.
- Faucet blocks carry no operation, so `CatchUp.Replayable` excludes them; they are in the chain invariant and the native account.
- Ethereum reorganisations: a mined block stays; the confirmation depth only delays the scan.
- Reentrancy of the contract's transfer, gas, and the text limits of the relayer's error column.
- Getters, view builders, hello messages, transaction gossip and single-branch rejections: easy members.
- Message handlers run as one step each in `Agreement.Next`; the source releases the node's lock between two blocks of a message and before a quorum is handed to the node.
- A deposit scan that the Ethereum node answers with nothing: the relayer takes a null answer for an empty list and passes the range; the model's scan always sees the contract's own events.
- The Bech32m library of the SDK is not part of this model; of it only the reading of what the encoding writes is assumed, and texts that are not encodings are not compared.
