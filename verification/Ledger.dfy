/** What each ledger operation does, as functions from a snapshot to the next one. An operation that fails
    still returns a snapshot: some operations have already written when they fail. */
module Ledger {
  import opened Wrappers
  import opened Core

  datatype StateError =
    | UnsupportedVersion | WrongChainId | AddressMismatch | InvalidSignature | ZeroAmount | MemoTooLong
    | FeeTooLow | NonceMismatch(expected: u64, actual: u64) | InsufficientBalance | BalanceOverflow
    | NonceOverflow | FeePoolOverflow | InvalidAssetOperationAsset | InsufficientAssetBalance
    | AssetBalanceOverflow | InsufficientFeeBalance | InvalidTokenMetadata | TokenAlreadyExists
    | TokenNotFound | TokenUnauthorized | TokenSupplyCapExceeded | TokenInsufficientBalance
    | TokenBalanceOverflow | TokenAccountFrozen | TokenPaused | TokenRecipientRequired
    | TokenRecipientForbidden | InvalidTokenId | MnaReservePaused | InvalidMnaReserveVersion
    | InvalidMnaCollateral | InvalidMnaConversion | MnaSwapInsufficientBalance | MnaReserveInsufficient
    | InvalidProgramOperation | ProgramNotFound | ProgramUnauthorized | ProgramAlreadyExists
    | DuplicateGenesisAllocation | GenesisSupplyMismatch

  /** `Done(true)`: applied; `Done(false)`: already applied before; `Failed`: rejected. */
  datatype Outcome = Done(applied: bool) | Failed(error: StateError)

  datatype Step = Step(state: Snapshot, outcome: Outcome)

  type Effect = Result<Snapshot, StateError>

  /** `*self = next` on success; on failure the clone is dropped. */
  function Adopt(fallback: Snapshot, effect: Effect): Step {
    match effect
    case Ok(next) => Step(next, Done(true))
    case Err(e) => Step(fallback, Failed(e))
  }

  /* ---------- reading the snapshot ---------- */

  function AccountOf(s: Snapshot, a: Address): Account {
    if a in s.native.accounts then s.native.accounts[a] else Account(0, 0)
  }

  function AssetsOf(s: Snapshot, a: Address): map<string, u128> {
    if a in s.assets.balances then s.assets.balances[a] else map[]
  }

  function Holding(assets: map<string, u128>, key: string): u128 {
    if key in assets then assets[key] else 0
  }

  function AssetBalance(s: Snapshot, a: Address, key: string): u128 {
    Holding(AssetsOf(s, a), key)
  }

  function SetHolding(s: Snapshot, a: Address, key: string, amount: u128): Snapshot {
    s.(assets := s.assets.(balances := s.assets.balances[a := AssetsOf(s, a)[key := amount]]))
  }

  function SetAccount(s: Snapshot, a: Address, account: Account): Snapshot {
    s.(native := s.native.(accounts := s.native.accounts[a := account]))
  }

  function CollectFee(s: Snapshot, fee: u128): Snapshot
    requires s.native.feePool + fee <= U128_MAX
  {
    s.(native := s.native.(feePool := s.native.feePool + fee))
  }

  function SetReserve(s: Snapshot, l: ReserveLedger): Snapshot {
    s.(mna := s.mna.(reserve := l))
  }

  function SetToken(s: Snapshot, id: Hash, d: TokenDefinition): Snapshot {
    s.(tokens := s.tokens.(definitions := s.tokens.definitions[id := d]))
  }

  predicate Contains(text: string, part: string) {
    part <= text || (text != "" && Contains(text[1..], part))
  }

  predicate IsDevnet(chainId: string) {
    Contains(chainId, "devnet")
  }

  /* ---------- native transfers ---------- */

  predicate FromFaucet(env: Env, s: Snapshot, u: UnsignedTransaction) {
    IsDevnet(s.chainId) && u.publicKey == env.faucetKey
  }

  function ValidateTransaction(env: Env, s: Snapshot, tx: Transaction): Result<Hash, StateError> {
    var u := tx.unsigned;
    var faucet := FromFaucet(env, s, u);
    if u.version != 1 then Err(UnsupportedVersion)
    else if u.chainId != s.chainId then Err(WrongChainId)
    else if env.addressOf(u.publicKey) != u.from then Err(AddressMismatch)
    else if !env.txSigned(tx) then Err(InvalidSignature)
    else if u.amount == 0 then Err(ZeroAmount)
    else if |u.memo| > MAX_MEMO_BYTES then Err(MemoTooLong)
    else if u.fee < s.feeMinimum then Err(FeeTooLow)
    else if !faucet && u.from !in s.native.accounts then Err(InsufficientBalance)
    else if u.amount + u.fee > U128_MAX then Err(BalanceOverflow)
    else if !faucet && s.native.accounts[u.from].balance < u.amount + u.fee then Err(InsufficientBalance)
    else if u.from in s.native.accounts && u.nonce != s.native.accounts[u.from].nonce then
      Err(NonceMismatch(s.native.accounts[u.from].nonce, u.nonce))
    else Ok(env.txId(u))
  }

  /** The faucet key pays nothing: the receiver is credited before the fee pool is known to have room. */
  function FaucetTransfer(s: Snapshot, u: UnsignedTransaction): Step {
    var receiver := AccountOf(s, u.to);
    if receiver.balance + u.amount > U128_MAX then Step(s, Failed(BalanceOverflow))
    else
      var credited := SetAccount(s, u.to, Account(receiver.balance + u.amount, receiver.nonce));
      if s.native.feePool + u.fee > U128_MAX then Step(credited, Failed(FeePoolOverflow))
      else Step(CollectFee(credited, u.fee), Done(true))
  }

  function WalletTransfer(s: Snapshot, u: UnsignedTransaction): Effect {
    var sender, receiver := AccountOf(s, u.from), AccountOf(s, u.to);
    if sender.balance < u.amount + u.fee then Err(InsufficientBalance)
    else if sender.nonce == U64_MAX then Err(NonceOverflow)
    else if s.native.feePool + u.fee > U128_MAX then Err(FeePoolOverflow)
    else
      var debited := Account(sender.balance - u.amount - u.fee, sender.nonce + 1);
      if u.from == u.to then
        Ok(CollectFee(SetAccount(s, u.from, Account(debited.balance + u.amount, debited.nonce)), u.fee))
      else if receiver.balance + u.amount > U128_MAX then Err(BalanceOverflow)
      else
        Ok(CollectFee(SetAccount(SetAccount(s, u.from, debited), u.to,
                                 Account(receiver.balance + u.amount, receiver.nonce)), u.fee))
  }

  function ApplyTransaction(env: Env, s: Snapshot, tx: Transaction): Step {
    match ValidateTransaction(env, s, tx)
    case Err(e) => Step(s, Failed(e))
    case Ok(_) =>
      if FromFaucet(env, s, tx.unsigned) then FaucetTransfer(s, tx.unsigned)
      else Adopt(s, WalletTransfer(s, tx.unsigned))
  }

  /* ---------- bridge mint and burn ---------- */

  function ApplyAssetOperation(s: Snapshot, op: AssetOperation): Step {
    if op.version != 1 then Step(s, Failed(UnsupportedVersion))
    else if op.amount == 0 then Step(s, Failed(ZeroAmount))
    else if op.assetId.namespace == "worldstreet" || op.assetId.contract.None? then
      Step(s, Failed(InvalidAssetOperationAsset))
    else if op.operationId in s.assets.processed then Step(s, Done(false))
    else
      RecordedAssetOperation(
        s.(assets := s.assets.(processed := s.assets.processed + {op.operationId},
                               records := s.assets.records[op.operationId := op])), op)
  }

  /** The part that runs after the replay id and the record are written. */
  function RecordedAssetOperation(s: Snapshot, op: AssetOperation): Step {
    var ledger := BridgedReserve(s.mna.reserve, op);
    if ledger.Err? then Step(s, Failed(ledger.error))
    else
      var s' := SetReserve(s, ledger.value)
                .(assets := s.assets.(balances := s.assets.balances[op.address := AssetsOf(s, op.address)]));
      var key := CanonicalKey(op.assetId);
      var current := AssetBalance(s, op.address, key);
      match op.kind
      case BridgeMint =>
        if current + op.amount > U128_MAX then Step(s', Failed(AssetBalanceOverflow))
        else Step(SetHolding(s', op.address, key, current + op.amount), Done(true))
      case BridgeBurn =>
        if current < op.amount then Step(s', Failed(InsufficientAssetBalance))
        else Step(SetHolding(s', op.address, key, current - op.amount), Done(true))
  }

  function BridgedReserve(l: ReserveLedger, op: AssetOperation): Result<ReserveLedger, StateError> {
    if !IsSupportedUsdc(op.assetId) then Ok(l)
    else match op.kind
      case BridgeMint =>
        if l.verifiedUsdc + op.amount > U128_MAX then Err(BalanceOverflow)
        else Ok(l.(verifiedUsdc := l.verifiedUsdc + op.amount))
      case BridgeBurn =>
        if l.releasedUsdc + op.amount > U128_MAX then Err(BalanceOverflow)
        else Ok(l.(releasedUsdc := l.releasedUsdc + op.amount))
  }

  /* ---------- MNA swaps and the reserve ---------- */

  function CurrentReserveUsd(l: ReserveLedger): u128 {
    SaturatingAdd(SaturatingSub(l.verifiedUsdc, l.releasedUsdc), SaturatingSub(l.verifiedSolUsd, l.releasedSolUsd))
  }

  function ValidateSwap(env: Env, s: Snapshot, op: MnaSwapOperation): Result<Hash, StateError> {
    var u := op.unsigned;
    if u.version != 1 then Err(UnsupportedVersion)
    else if u.chainId != s.chainId then Err(WrongChainId)
    else if env.addressOf(u.publicKey) != u.from then Err(AddressMismatch)
    else if !env.swapSigned(op) then Err(InvalidSignature)
    else if u.fee < s.feeMinimum then Err(FeeTooLow)
    else if u.from !in s.native.accounts then Err(InsufficientFeeBalance)
    else if s.native.accounts[u.from].nonce != u.nonce then Err(NonceMismatch(s.native.accounts[u.from].nonce, u.nonce))
    else if s.native.accounts[u.from].balance < u.fee then Err(InsufficientFeeBalance)
    else if !IsSupportedUsdc(u.collateralAsset) then Err(InvalidMnaCollateral)
    else if u.amountUsdc == 0 || u.amountUsdc % MNA_USDC_DENOMINATOR != 0
            || u.amountMna != u.amountUsdc / MNA_USDC_DENOMINATOR then Err(InvalidMnaConversion)
    else Ok(env.swapId(u))
  }

  function MintEffect(s: Snapshot, op: MnaSwapOperation, id: Hash): Effect {
    var u := op.unsigned;
    var key, account := CanonicalKey(u.collateralAsset), AccountOf(s, u.from);
    var current := AssetBalance(s, u.from, key);
    if account.balance < u.fee then Err(InsufficientFeeBalance)
    else if account.nonce == U64_MAX then Err(NonceOverflow)
    else if current < u.amountUsdc then Err(MnaSwapInsufficientBalance)
    else if account.balance - u.fee + u.amountMna > U128_MAX then Err(BalanceOverflow)
    else if s.mna.reserve.backedMna + u.amountMna > U128_MAX then Err(BalanceOverflow)
    else if CurrentReserveUsd(s.mna.reserve) < SaturatingDouble(s.mna.reserve.backedMna + u.amountMna) then
      Err(MnaReserveInsufficient)
    else
      var s1 := SetHolding(s, u.from, key, current - u.amountUsdc);
      var s2 := SetAccount(s1, u.from, Account(account.balance - u.fee + u.amountMna, account.nonce + 1));
      var l := s.mna.reserve.(backedMna := s.mna.reserve.backedMna + u.amountMna);
      Ok(s2.(mna := s.mna.(reserve := l, swapRecords := s.mna.swapRecords[id := op])))
  }

  /** Redeeming adds amount and fee with a plain `+`, which wraps. */
  function RedeemEffect(s: Snapshot, op: MnaSwapOperation, id: Hash): Effect {
    var u := op.unsigned;
    var key, account := CanonicalKey(u.collateralAsset), AccountOf(s, u.from);
    var current := AssetBalance(s, u.from, key);
    var cost := WrappingAdd(u.amountMna, u.fee);
    if account.balance < u.fee then Err(InsufficientFeeBalance)
    else if account.nonce == U64_MAX then Err(NonceOverflow)
    else if account.balance < cost then Err(MnaSwapInsufficientBalance)
    else if current + u.amountUsdc > U128_MAX then Err(AssetBalanceOverflow)
    else if s.mna.reserve.backedMna < u.amountMna then Err(MnaReserveInsufficient)
    else if s.mna.reserve.redeemedMna + u.amountMna > U128_MAX then Err(BalanceOverflow)
    else
      var s1 := SetHolding(s, u.from, key, current + u.amountUsdc);
      var s2 := SetAccount(s1, u.from, Account(account.balance - cost, account.nonce + 1));
      var l := s.mna.reserve.(backedMna := s.mna.reserve.backedMna - u.amountMna,
                              redeemedMna := s.mna.reserve.redeemedMna + u.amountMna);
      Ok(s2.(mna := s.mna.(reserve := l, swapRecords := s.mna.swapRecords[id := op])))
  }

  function SwapEffect(s: Snapshot, op: MnaSwapOperation, id: Hash): Effect {
    match op.unsigned.kind
    case MintMna => MintEffect(s, op, id)
    case RedeemMna => RedeemEffect(s, op, id)
  }

  /** The replay id is written before the clone is taken, so it stays when the swap fails. */
  function ApplySwap(env: Env, s: Snapshot, op: MnaSwapOperation): Step {
    match ValidateSwap(env, s, op)
    case Err(e) => Step(s, Failed(e))
    case Ok(id) =>
      if id in s.mna.processedSwaps then Step(s, Done(false))
      else
        var marked := s.(mna := s.mna.(processedSwaps := s.mna.processedSwaps + {id}));
        Adopt(marked, SwapEffect(marked, op, id))
  }

  predicate IsSpace(c: char) {
    c == ' ' || '\t' <= c <= '\r'
  }

  predicate Blank(text: string) {
    forall i :: 0 <= i < |text| ==> IsSpace(text[i])
  }

  predicate ExactConversion(op: MnaReserveOperation) {
    && op.amountUsdc != 0
    && op.amountUsdc % MNA_USDC_DENOMINATOR == 0
    && op.amountMna != 0
    && op.feeMna <= op.amountUsdc / MNA_USDC_DENOMINATOR
    && WrappingAdd(op.amountMna, op.feeMna) == op.amountUsdc / MNA_USDC_DENOMINATOR
  }

  function CheckCollateral(op: MnaReserveOperation): Result<(), StateError> {
    if IsSupportedSol(op.collateralAsset) then
      if op.collateralAmount == 0 || op.oraclePrice == 0 || op.oracleTimestamp == 0 then Err(InvalidMnaConversion)
      else if op.collateralAmount * op.oraclePrice > U128_MAX then Err(BalanceOverflow)
      else if op.collateralAmount * op.oraclePrice / LAMPORTS_PER_SOL != op.amountUsdc then Err(InvalidMnaConversion)
      else Ok(())
    else if op.collateralAmount != 0 || op.oraclePrice != 0 || op.oracleTimestamp != 0 || op.feeMna != 0 then
      Err(InvalidMnaConversion)
    else Ok(())
  }

  function ValidateReserve(env: Env, s: Snapshot, op: MnaReserveOperation): Result<Hash, StateError> {
    if op.version != 1 then Err(InvalidMnaReserveVersion)
    else if s.mna.reserve.paused then Err(MnaReservePaused)
    else if !IsSupportedSol(op.collateralAsset) && !IsSupportedUsdc(op.collateralAsset) then
      Err(InvalidMnaCollateral)
    else if !ExactConversion(op) then Err(InvalidMnaConversion)
    else
      var _ :- CheckCollateral(op);
      if Blank(op.externalTransaction) then Err(InvalidMnaReserveVersion)
      else if env.reserveId(op) != op.operationId then Err(InvalidMnaReserveVersion)
      else Ok(env.reserveId(op))
  }

  function DepositEffect(s: Snapshot, op: MnaReserveOperation): Effect {
    var l := s.mna.reserve;
    if IsSupportedSol(op.collateralAsset) then
      var account := AccountOf(s, op.address);
      if l.verifiedLamports + op.collateralAmount > U128_MAX then Err(BalanceOverflow)
      else if l.verifiedSolUsd + op.amountUsdc > U128_MAX then Err(BalanceOverflow)
      else if account.balance + op.amountMna > U128_MAX then Err(BalanceOverflow)
      else if l.backedMna + op.amountMna > U128_MAX then Err(BalanceOverflow)
      else
        Ok(SetReserve(SetAccount(s, op.address, Account(account.balance + op.amountMna, account.nonce)),
                      l.(verifiedLamports := l.verifiedLamports + op.collateralAmount,
                         verifiedSolUsd := l.verifiedSolUsd + op.amountUsdc,
                         backedMna := l.backedMna + op.amountMna)))
    else if l.verifiedUsdc + op.amountUsdc > U128_MAX then Err(BalanceOverflow)
    else Ok(SetReserve(s, l.(verifiedUsdc := l.verifiedUsdc + op.amountUsdc)))
  }

  function ReleaseEffect(s: Snapshot, op: MnaReserveOperation): Effect {
    var l := s.mna.reserve;
    if IsSupportedSol(op.collateralAsset) then
      if SaturatingSub(l.verifiedSolUsd, l.releasedSolUsd) < op.amountUsdc then Err(MnaReserveInsufficient)
      else if l.releasedSolUsd + op.amountUsdc > U128_MAX then Err(BalanceOverflow)
      else if l.releasedLamports + op.collateralAmount > U128_MAX then Err(BalanceOverflow)
      else Ok(SetReserve(s, l.(releasedSolUsd := l.releasedSolUsd + op.amountUsdc,
                               releasedLamports := l.releasedLamports + op.collateralAmount)))
    else if SaturatingSub(l.verifiedUsdc, l.releasedUsdc) < op.amountUsdc then Err(MnaReserveInsufficient)
    else if l.releasedUsdc + op.amountUsdc > U128_MAX then Err(BalanceOverflow)
    else Ok(SetReserve(s, l.(releasedUsdc := l.releasedUsdc + op.amountUsdc)))
  }

  function ReserveEffect(s: Snapshot, op: MnaReserveOperation, id: Hash): Effect {
    var next :- if op.kind == VerifyDeposit then DepositEffect(s, op) else ReleaseEffect(s, op);
    var l := next.mna.reserve;
    if CurrentReserveUsd(l) < SaturatingDouble(l.backedMna) then Err(MnaReserveInsufficient)
    else Ok(next.(mna := next.mna.(reserveRecords := s.mna.reserveRecords[id := op])))
  }

  function ApplyReserve(env: Env, s: Snapshot, op: MnaReserveOperation): Step {
    match ValidateReserve(env, s, op)
    case Err(e) => Step(s, Failed(e))
    case Ok(id) =>
      if id in s.mna.processedReserves then Step(s, Done(false))
      else
        var marked := s.(mna := s.mna.(processedReserves := s.mna.processedReserves + {id}));
        Adopt(marked, ReserveEffect(marked, op, id))
  }

  /* ---------- custom tokens ---------- */

  function TokenKey(d: TokenDefinition): string {
    CanonicalKey(CustomAsset(d.tokenId, d.symbol, d.decimals))
  }

  predicate Alphanumeric(c: char) {
    '0' <= c <= '9' || 'a' <= c <= 'z' || 'A' <= c <= 'Z'
  }

  predicate BadCreate(u: UnsignedTokenOperation) {
    || u.tokenId != ZERO_HASH
    || u.name == "" || |u.name| > 64
    || u.symbol == "" || |u.symbol| > 16
    || (exists i :: 0 <= i < |u.symbol| && !Alphanumeric(u.symbol[i]))
    || u.decimals > 18
    || u.to.Some?
    || u.maxSupply == Some(0)
    || (u.maxSupply.Some? && u.amount > u.maxSupply.value)
  }

  function CheckTokenKind(u: UnsignedTokenOperation): Result<(), StateError> {
    if u.kind == Create then
      if BadCreate(u) then Err(InvalidTokenMetadata) else Ok(())
    else if u.kind == TokenTransfer || u.kind == TokenMint then
      if u.tokenId == ZERO_HASH || u.to.None? || u.amount == 0 || u.to == Some(u.from) then
        Err(TokenRecipientRequired)
      else Ok(())
    else if u.kind == TokenBurn then
      if u.tokenId == ZERO_HASH || u.to.Some? || u.amount == 0 then Err(TokenRecipientForbidden) else Ok(())
    else if u.tokenId == ZERO_HASH then Err(InvalidTokenId)
    else if u.kind == Freeze || u.kind == Unfreeze then
      if u.to.None? then Err(TokenRecipientRequired) else Ok(())
    else if u.to.Some? then Err(TokenRecipientForbidden)
    else Ok(())
  }

  function ValidateToken(env: Env, s: Snapshot, op: TokenOperation): Result<Hash, StateError> {
    var u := op.unsigned;
    if u.version != 1 then Err(UnsupportedVersion)
    else if u.chainId != s.chainId then Err(WrongChainId)
    else if env.addressOf(u.publicKey) != u.from then Err(AddressMismatch)
    else if !env.tokenSigned(op) then Err(InvalidSignature)
    else if |u.memo| > MAX_MEMO_BYTES then Err(MemoTooLong)
    else if u.fee < s.feeMinimum then Err(FeeTooLow)
    else if u.from !in s.native.accounts then Err(InsufficientFeeBalance)
    else if s.native.accounts[u.from].nonce != u.nonce then Err(NonceMismatch(s.native.accounts[u.from].nonce, u.nonce))
    else if s.native.accounts[u.from].balance < u.fee then Err(InsufficientFeeBalance)
    else
      var _ :- CheckTokenKind(u);
      Ok(env.tokenOpId(u))
  }

  function ChargeTokenFee(s: Snapshot, u: UnsignedTokenOperation): Effect {
    if u.from !in s.native.accounts then Err(InsufficientFeeBalance)
    else
      var sender := s.native.accounts[u.from];
      if sender.balance < u.fee then Err(InsufficientFeeBalance)
      else if sender.nonce == U64_MAX then Err(NonceOverflow)
      else if s.native.feePool + u.fee > U128_MAX then Err(FeePoolOverflow)
      else Ok(CollectFee(SetAccount(s, u.from, Account(sender.balance - u.fee, sender.nonce + 1)), u.fee))
  }

  function AdjustTokenBalance(s: Snapshot, d: TokenDefinition, a: Address, amount: u128, add: bool): Effect {
    var key := TokenKey(d);
    var current := AssetBalance(s, a, key);
    if add then
      if current + amount > U128_MAX then Err(TokenBalanceOverflow) else Ok(SetHolding(s, a, key, current + amount))
    else
      if current < amount then Err(TokenInsufficientBalance) else Ok(SetHolding(s, a, key, current - amount))
  }

  function CheckTransferable(s: Snapshot, d: TokenDefinition, from: Address, to: Address): Result<(), StateError> {
    if d.paused then Err(TokenPaused)
    else if (d.tokenId, from) in s.tokens.frozen || (d.tokenId, to) in s.tokens.frozen then Err(TokenAccountFrozen)
    else Ok(())
  }

  function NewToken(u: UnsignedTokenOperation, id: Hash): TokenDefinition {
    TokenDefinition(id, u.from, u.name, u.symbol, u.decimals, u.amount, u.maxSupply, u.mintAuthority,
                    u.burnAuthority, u.freezeAuthority, u.metadataUri, u.metadataHash, false)
  }

  function CreateToken(s: Snapshot, u: UnsignedTokenOperation, id: Hash): Effect {
    if id in s.tokens.definitions then Err(TokenAlreadyExists)
    else
      var d := NewToken(u, id);
      var s' := SetToken(s, id, d);
      if u.amount > 0 then AdjustTokenBalance(s', d, u.from, u.amount, true) else Ok(s')
  }

  function TransferToken(s: Snapshot, u: UnsignedTokenOperation, d: TokenDefinition): Effect {
    if u.to.None? then Err(TokenRecipientRequired)
    else
      var _ :- CheckTransferable(s, d, u.from, u.to.value);
      var s' :- AdjustTokenBalance(s, d, u.from, u.amount, false);
      AdjustTokenBalance(s', d, u.to.value, u.amount, true)
  }

  function MintToken(s: Snapshot, u: UnsignedTokenOperation, d: TokenDefinition): Effect {
    if d.mintAuthority != Some(u.from) then Err(TokenUnauthorized)
    else if u.to.None? then Err(TokenRecipientRequired)
    else if d.paused then Err(TokenPaused)
    else if (d.tokenId, u.to.value) in s.tokens.frozen then Err(TokenAccountFrozen)
    else if d.totalSupply + u.amount > U128_MAX then Err(TokenSupplyCapExceeded)
    else if d.maxSupply.Some? && d.totalSupply + u.amount > d.maxSupply.value then Err(TokenSupplyCapExceeded)
    else
      var d' := d.(totalSupply := d.totalSupply + u.amount);
      var s' :- AdjustTokenBalance(s, d', u.to.value, u.amount, true);
      Ok(SetToken(s', d'.tokenId, d'))
  }

  function BurnToken(s: Snapshot, u: UnsignedTokenOperation, d: TokenDefinition): Effect {
    var _ :- CheckTransferable(s, d, u.from, u.from);
    var s' :- AdjustTokenBalance(s, d, u.from, u.amount, false);
    if d.totalSupply < u.amount then Err(TokenInsufficientBalance)
    else Ok(SetToken(s', d.tokenId, d.(totalSupply := d.totalSupply - u.amount)))
  }

  function FreezeToken(s: Snapshot, u: UnsignedTokenOperation, d: TokenDefinition): Effect {
    if d.freezeAuthority != Some(u.from) then Err(TokenUnauthorized)
    else if u.to.None? then Err(TokenRecipientRequired)
    else
      var entry := (d.tokenId, u.to.value);
      Ok(s.(tokens := s.tokens.(frozen := if u.kind == Freeze then s.tokens.frozen + {entry}
        else s.tokens.frozen - {entry})))
  }

  /** Pausing, metadata and authorities: only the creator may change them. */
  function GovernedDefinition(u: UnsignedTokenOperation, d: TokenDefinition): Result<TokenDefinition, StateError> {
    if d.creator != u.from then Err(TokenUnauthorized)
    else if u.kind == Pause || u.kind == Unpause then Ok(d.(paused := u.kind == Pause))
    else if u.kind == UpdateMetadata then
      if |u.metadataUri| > 256 then Err(TokenUnauthorized)
      else Ok(d.(metadataUri := u.metadataUri, metadataHash := u.metadataHash))
    else
      Ok(d.(mintAuthority := u.mintAuthority, burnAuthority := u.burnAuthority, freezeAuthority := u.freezeAuthority))
  }

  function GovernToken(s: Snapshot, u: UnsignedTokenOperation, d: TokenDefinition): Effect {
    var d' :- GovernedDefinition(u, d);
    Ok(SetToken(s, d.tokenId, d'))
  }

  /** What the operation does to token definitions, balances and frozen accounts, after the fee. */
  function TokenAction(env: Env, s: Snapshot, u: UnsignedTokenOperation, id: Hash): Effect {
    if u.kind == Create then CreateToken(s, u, env.tokenIdOf(id))
    else if u.tokenId !in s.tokens.definitions then Err(TokenNotFound)
    else
      var d := s.tokens.definitions[u.tokenId];
      if u.kind == TokenTransfer then TransferToken(s, u, d)
      else if u.kind == TokenMint then MintToken(s, u, d)
      else if u.kind == TokenBurn then BurnToken(s, u, d)
      else if u.kind == Freeze || u.kind == Unfreeze then FreezeToken(s, u, d)
      else GovernToken(s, u, d)
  }

  function TokenEffect(env: Env, s: Snapshot, op: TokenOperation, id: Hash): Effect {
    var paid :- ChargeTokenFee(s, op.unsigned);
    var acted :- TokenAction(env, paid, op.unsigned, id);
    Ok(acted.(tokens := acted.tokens.(processed := acted.tokens.processed + {id},
                                      records := acted.tokens.records[id := op])))
  }

  function ApplyToken(env: Env, s: Snapshot, op: TokenOperation, expectedId: Hash): Step {
    if env.tokenOpId(op.unsigned) != expectedId then Step(s, Failed(InvalidTokenId))
    else if expectedId in s.tokens.processed then Step(s, Done(false))
    else match ValidateToken(env, s, op)
      case Err(e) => Step(s, Failed(e))
      case Ok(_) => Adopt(s, TokenEffect(env, s, op, expectedId))
  }

  /* ---------- programs ---------- */

  function AuthorisedFee(s: Snapshot, op: ProgramOperation): Result<u128, StateError> {
    var extra := if op.kind == Deploy then |op.package| else if op.kind == Call then op.gasLimit else 0;
    if s.feeMinimum + extra > U128_MAX then Err(FeePoolOverflow) else Ok(s.feeMinimum + extra)
  }

  datatype ProgramRun = ProgramRun(
    state: Snapshot, status: string, data: seq<byte>, gasUsed: u64, error: Option<string>)

  function CallProgram(env: Env, s: Snapshot, op: ProgramOperation): ProgramRun
    requires op.programId in s.programs.live
  {
    match env.execute(s.programs.live[op.programId].package, op.gasLimit)
    case RunOk(data, used) => ProgramRun(s, "success", data, used, None)
    case RunErr(message) => ProgramRun(s, "failed", [], op.gasLimit, Some(message))
  }

  function SetProgram(s: Snapshot, id: string, record: ProgramRecord): Snapshot {
    s.(programs := s.programs.(live := s.programs.live[id := record]))
  }

  function DeployProgram(env: Env, s: Snapshot, op: ProgramOperation, owner: Address, height: nat): Effect {
    if op.programId in s.programs.live || op.programId in s.programs.closed then Err(ProgramAlreadyExists)
    else if env.packageId(op.package) != Some(op.programId) then Err(InvalidProgramOperation)
    else Ok(SetProgram(s, op.programId, ProgramRecord(op.package, owner, height, map[])))
  }

  function StoreInProgram(s: Snapshot, op: ProgramOperation, owner: Address): Effect {
    if |op.key| > 128 || |op.value| > 4096 then Err(InvalidProgramOperation)
    else if op.programId !in s.programs.live then Err(ProgramNotFound)
    else
      var record := s.programs.live[op.programId];
      if record.creator != owner then Err(ProgramUnauthorized)
      else Ok(SetProgram(s, op.programId, record.(storage := record.storage[op.key := op.value])))
  }

  function CloseProgram(s: Snapshot, op: ProgramOperation, owner: Address, height: nat): Effect {
    if op.programId !in s.programs.live then Err(ProgramNotFound)
    else if s.programs.live[op.programId].creator != owner then Err(ProgramUnauthorized)
    else Ok(s.(programs := s.programs.(live := s.programs.live - {op.programId},
                                       closed := s.programs.closed[op.programId := height])))
  }

  function ProgramAction(env: Env, s: Snapshot, op: ProgramOperation, owner: Address, height: nat)
    : Result<ProgramRun, StateError>
  {
    if op.kind == Call then
      if op.gasLimit == 0 then Err(InvalidProgramOperation)
      else if op.programId !in s.programs.live then Err(ProgramNotFound)
      else if env.packageId(s.programs.live[op.programId].package).None? then Err(InvalidProgramOperation)
      else Ok(CallProgram(env, s, op))
    else if op.kind == Deploy then
      var next :- DeployProgram(env, s, op, owner, height);
      Ok(ProgramRun(next, "confirmed", [], 0, None))
    else if op.kind == StorageSet then
      var next :- StoreInProgram(s, op, owner);
      Ok(ProgramRun(next, "confirmed", [], 0, None))
    else
      var next :- CloseProgram(s, op, owner, height);
      Ok(ProgramRun(next, "closed", [], 0, None))
  }

  function ChargedFee(s: Snapshot, op: ProgramOperation, authorised: u128, gasUsed: u64): Result<u128, StateError> {
    if op.kind == Deploy then Ok(authorised)
    else if op.kind != Call then Ok(s.feeMinimum)
    else if s.feeMinimum + gasUsed > U128_MAX then Err(FeePoolOverflow)
    else Ok(s.feeMinimum + gasUsed)
  }

  /** The payer is debited with a plain `-=`, which wraps when the charged fee exceeds the balance. */
  function SettleProgram(run: ProgramRun, op: ProgramOperation, owner: Address, charged: u128, id: Hash): Effect {
    var s := run.state;
    var payer := AccountOf(s, owner);
    if payer.nonce == U64_MAX then Err(NonceOverflow)
    else if s.native.feePool + charged > U128_MAX then Err(FeePoolOverflow)
    else
      var receipt := ProgramReceipt(op.programId, op.kind, run.status, run.data, run.gasUsed, op.gasLimit, charged,
        run.error);
      var paid := SetAccount(s, owner, Account(WrappingSub(payer.balance, charged), payer.nonce + 1));
      Ok(CollectFee(paid, charged).(programs := s.programs.(receipts := s.programs.receipts[id := receipt])))
  }

  function SettledProgram(env: Env, s: Snapshot, op: ProgramOperation, owner: Address, authorised: u128,
      height: nat): Effect {
    var run :- ProgramAction(env, s, op, owner, height);
    var charged :- ChargedFee(s, op, authorised, run.gasUsed);
    SettleProgram(run, op, owner, charged, env.programOpId(op))
  }

  function ProgramEffect(env: Env, s: Snapshot, op: ProgramOperation, height: nat): Effect {
    var owner := env.addressOf(op.publicKey);
    var account := AccountOf(s, owner);
    if op.version != 1 then Err(UnsupportedVersion)
    else if op.chainId != s.chainId then Err(WrongChainId)
    else if !env.programSigned(op) then Err(InvalidSignature)
    else if op.nonce != account.nonce then Err(NonceMismatch(account.nonce, op.nonce))
    else
      var authorised :- AuthorisedFee(s, op);
      if op.fee < authorised then Err(FeeTooLow)
      else if account.balance < authorised then Err(InsufficientBalance)
      else SettledProgram(env, SetAccount(s, owner, account), op, owner, authorised, height)
  }

  function ApplyProgram(env: Env, s: Snapshot, op: ProgramOperation, height: nat): Step {
    if env.programOpId(op) in s.programs.receipts then Step(s, Done(false))
    else Adopt(s, ProgramEffect(env, s, op, height))
  }

  /* ---------- genesis, devnet credit ---------- */

  function CreditDevnet(s: Snapshot, a: Address, amount: u128): Effect {
    var account := AccountOf(s, a);
    if account.balance + amount > U128_MAX then Err(BalanceOverflow)
    else Ok(SetAccount(s, a, Account(account.balance + amount, account.nonce)))
  }

  function GenesisState(chainId: string, feeMinimum: u128, accounts: map<Address, Account>): Snapshot {
    Snapshot(chainId, feeMinimum, NativeBook(0, accounts), AssetBook(map[], {}, map[]), TokenBook(map[], {}, map[], {}),
             MnaBook(EMPTY_RESERVE, {}, map[], {}, map[]), ProgramBook(map[], map[], map[]))
  }

  /* ---------- all operations together, and runs ---------- */

  datatype Op =
    | Transfer(tx: Transaction)
    | Bridge(asset: AssetOperation)
    | Token(token: TokenOperation)
    | Swap(swap: MnaSwapOperation)
    | Reserve(reserve: MnaReserveOperation)
    | Program(program: ProgramOperation, height: nat)
    | Credit(to: Address, credit: u128)

  function Apply(env: Env, s: Snapshot, op: Op): Step {
    match op
    case Transfer(tx) => ApplyTransaction(env, s, tx)
    case Bridge(o) => ApplyAssetOperation(s, o)
    case Token(o) => ApplyToken(env, s, o, env.tokenOpId(o.unsigned))
    case Swap(o) => ApplySwap(env, s, o)
    case Reserve(o) => ApplyReserve(env, s, o)
    case Program(o, height) => ApplyProgram(env, s, o, height)
    case Credit(a, amount) => Adopt(s, CreditDevnet(s, a, amount))
  }

  /** A run in which every operation is accepted; `None` once one is rejected. */
  function Run(env: Env, s: Snapshot, ops: seq<Op>): Option<Snapshot>
    decreases |ops|
  {
    if ops == [] then Some(s)
    else
      var step := Apply(env, s, ops[0]);
      if step.outcome.Done? then Run(env, step.state, ops[1..]) else None
  }
}
