/** What an operation moves, account by account: native units, holdings of every asset, the fee pool and the reserve. */
module Effects {
  import opened Wrappers
  import opened Core
  import opened Ledger
  import opened Frames
  import opened NativeAccounting
  import opened Nonces

  function NativeOf(s: Snapshot, a: Address): nat {
    AccountOf(s, a).balance
  }

  /* ---------- native units ---------- */

  /** The fee of a program operation: deployment pays by the byte, calls by the gas they used. */
  function ProgramFee(env: Env, s: Snapshot, o: ProgramOperation): nat {
    if o.kind == Deploy then s.feeMinimum + |o.package|
    else if o.kind == Call && o.programId in s.programs.live then
      var run := env.execute(s.programs.live[o.programId].package, o.gasLimit);
      s.feeMinimum + (if run.RunOk? then run.used else o.gasLimit)
    else s.feeMinimum
  }

  /** What an applied operation adds to the native balance of one account. */
  function NativeChange(env: Env, s: Snapshot, op: Op, a: Address): int {
    match op
    case Transfer(tx) =>
      var u := tx.unsigned;
      (if a == u.to then u.amount else 0) - (if a == u.from && !FromFaucet(env, s, u) then u.amount + u.fee else 0)
    case Bridge(_) => 0
    case Token(o) => if a == o.unsigned.from then 0 - o.unsigned.fee else 0
    case Swap(o) =>
      var u := o.unsigned;
      if a != u.from then 0
      else if u.kind == MintMna then u.amountMna - u.fee else Surplus(op, Done(true)) - u.amountMna - u.fee
    case Reserve(o) =>
      if o.kind == VerifyDeposit && IsSupportedSol(o.collateralAsset) && a == o.address then o.amountMna else 0
    case Program(o, _) => if a == env.addressOf(o.publicKey) then 0 - ProgramFee(env, s, o) else 0
    case Credit(b, amount) => if a == b then amount else 0
  }

  /** What it adds to the fee pool. */
  function FeeCollected(env: Env, s: Snapshot, op: Op): nat {
    match op
    case Transfer(tx) => tx.unsigned.fee
    case Token(o) => o.unsigned.fee
    case Program(o, _) => ProgramFee(env, s, o)
    case _ => 0
  }

  ghost predicate MovesNative(env: Env, s: Snapshot, op: Op, s': Snapshot) {
    && (forall a :: NativeOf(s', a) == NativeOf(s, a) + NativeChange(env, s, op, a))
    && s'.native.feePool == s.native.feePool + FeeCollected(env, s, op)
  }

  lemma TransferMovesNative(env: Env, s: Snapshot, tx: Transaction)
    requires ApplyTransaction(env, s, tx).outcome == Done(true)
    ensures MovesNative(env, s, Transfer(tx), ApplyTransaction(env, s, tx).state)
  {
    hide ValidateTransaction, IsDevnet;
  }

  lemma TokenMovesNative(env: Env, s: Snapshot, o: TokenOperation, id: Hash)
    requires ApplyToken(env, s, o, id).outcome == Done(true)
    ensures MovesNative(env, s, Token(o), ApplyToken(env, s, o, id).state)
  {
    TokenActionWrites(env, ChargeTokenFee(s, o.unsigned).value, o.unsigned, id);
    hide TokenAction, ValidateToken;
  }

  lemma SwapMovesNative(env: Env, s: Snapshot, o: MnaSwapOperation)
    requires ApplySwap(env, s, o).outcome == Done(true)
    ensures MovesNative(env, s, Op.Swap(o), ApplySwap(env, s, o).state)
  {
    hide CanonicalKey, IsSupportedUsdc, ValidateSwap;
    var id := ValidateSwap(env, s, o).value;
    var marked := s.(mna := s.mna.(processedSwaps := s.mna.processedSwaps + {id}));
    SwapEffectWrites(marked, o, id);
    if o.unsigned.kind == MintMna {
      MintMovesNative(env, s, marked, o, id);
    } else {
      RedeemMovesNative(env, s, marked, o, id);
    }
  }

  lemma MintMovesNative(env: Env, s: Snapshot, marked: Snapshot, o: MnaSwapOperation, id: Hash)
    requires marked.native == s.native && o.unsigned.kind == MintMna && MintEffect(marked, o, id).Ok?
    ensures MovesNative(env, s, Op.Swap(o), MintEffect(marked, o, id).value)
  {
    hide CanonicalKey, CurrentReserveUsd;
  }

  lemma RedeemMovesNative(env: Env, s: Snapshot, marked: Snapshot, o: MnaSwapOperation, id: Hash)
    requires marked.native == s.native && o.unsigned.kind == RedeemMna && RedeemEffect(marked, o, id).Ok?
    ensures MovesNative(env, s, Op.Swap(o), RedeemEffect(marked, o, id).value)
  {
    hide CanonicalKey;
  }

  lemma ReserveMovesNative(env: Env, s: Snapshot, o: MnaReserveOperation)
    requires ApplyReserve(env, s, o).outcome == Done(true)
    ensures MovesNative(env, s, Op.Reserve(o), ApplyReserve(env, s, o).state)
  {
    hide IsSupportedUsdc, IsSupportedSol, ValidateReserve;
  }

  lemma ProgramMovesNative(env: Env, s: Snapshot, o: ProgramOperation, height: nat)
    requires Metered(env) && ApplyProgram(env, s, o, height).outcome == Done(true)
    ensures MovesNative(env, s, Program(o, height), ApplyProgram(env, s, o, height).state)
  {
    var owner := env.addressOf(o.publicKey);
    var entered := SetAccount(s, owner, AccountOf(s, owner));
    ChargedWithinAuthorised(env, entered, o, owner, height);
    ProgramActionWrites(env, entered, o, owner, height);
    var run := ProgramAction(env, entered, o, owner, height).value;
    var charged := ChargedFee(entered, o, AuthorisedFee(s, o).value, run.gasUsed).value;
    assert charged == ProgramFee(env, s, o);
    hide ProgramAction, ProgramFee;
    assert WrappingSub(AccountOf(s, owner).balance, charged) == AccountOf(s, owner).balance - charged;
  }

  /** An applied operation moves every native balance by its change and the fee pool by its fee. */
  lemma AppliedMovesNative(env: Env, s: Snapshot, op: Op)
    requires Metered(env) && Apply(env, s, op).outcome == Done(true)
    ensures MovesNative(env, s, op, Apply(env, s, op).state)
  {
    match op
    case Transfer(tx) => TransferMovesNative(env, s, tx);
    case Bridge(o) => BridgeWrites(s, o);
    case Token(o) => TokenMovesNative(env, s, o, env.tokenOpId(o.unsigned));
    case Swap(o) => SwapMovesNative(env, s, o);
    case Reserve(o) => ReserveMovesNative(env, s, o);
    case Program(o, height) => ProgramMovesNative(env, s, o, height);
    case Credit(a, amount) =>
  }

  /* ---------- holdings of assets ---------- */

  /** What a token operation adds to one holding under the key of its token. */
  function TokenChange(u: UnsignedTokenOperation, a: Address): int {
    if u.kind == Create then (if a == u.from then u.amount else 0)
    else if u.kind == TokenTransfer then
      (if u.to == Some(a) then u.amount else 0) - (if a == u.from then u.amount else 0)
    else if u.kind == TokenMint then (if u.to == Some(a) then u.amount else 0)
    else if u.kind == TokenBurn then (if a == u.from then 0 - u.amount else 0)
    else 0
  }

  /** The key of the token that an operation creates or names. */
  function TokenKeyOfOp(env: Env, s: Snapshot, u: UnsignedTokenOperation): string {
    if u.kind == Create then CanonicalKey(CustomAsset(env.tokenIdOf(env.tokenOpId(u)), u.symbol, u.decimals))
    else if u.tokenId in s.tokens.definitions then TokenKey(s.tokens.definitions[u.tokenId])
    else ""
  }

  /** What an applied operation adds to the holding of one account under one key. */
  function HoldingChange(env: Env, s: Snapshot, op: Op, a: Address, key: string): int {
    match op
    case Bridge(o) =>
      if a != o.address || key != CanonicalKey(o.assetId) then 0
      else if o.kind == BridgeMint then o.amount else 0 - o.amount
    case Token(o) => if key == TokenKeyOfOp(env, s, o.unsigned) then TokenChange(o.unsigned, a) else 0
    case Swap(o) =>
      var u := o.unsigned;
      if a != u.from || key != CanonicalKey(u.collateralAsset) then 0
      else if u.kind == MintMna then 0 - u.amountUsdc else u.amountUsdc
    case _ => 0
  }

  ghost predicate MovesHoldings(env: Env, s: Snapshot, op: Op, s': Snapshot) {
    forall a, key :: AssetBalance(s', a, key) == AssetBalance(s, a, key) + HoldingChange(env, s, op, a, key)
  }

  lemma BridgeMovesHoldings(env: Env, s: Snapshot, o: AssetOperation)
    requires ApplyAssetOperation(s, o).outcome == Done(true)
    ensures MovesHoldings(env, s, Bridge(o), ApplyAssetOperation(s, o).state)
  {
    hide CanonicalKey, IsSupportedUsdc;
  }

  lemma SwapMovesHoldings(env: Env, s: Snapshot, o: MnaSwapOperation)
    requires ApplySwap(env, s, o).outcome == Done(true)
    ensures MovesHoldings(env, s, Op.Swap(o), ApplySwap(env, s, o).state)
  {
    hide CanonicalKey, IsSupportedUsdc, ValidateSwap, CurrentReserveUsd;
  }

  /** One holding moves by the amount, every other stays. */
  lemma AdjustMovesOne(s: Snapshot, d: TokenDefinition, a: Address, amount: u128, add: bool)
    requires AdjustTokenBalance(s, d, a, amount, add).Ok?
    ensures var s' := AdjustTokenBalance(s, d, a, amount, add).value;
            forall b, key :: AssetBalance(s', b, key) == AssetBalance(s, b, key)
              + (if b == a && key == TokenKey(d) then (if add then amount else 0 - amount) else 0)
  {
    hide TokenKey;
  }

  lemma BothMove(s: Snapshot, u: UnsignedTokenOperation, d: TokenDefinition)
    requires u.kind == TokenTransfer && TransferToken(s, u, d).Ok?
    ensures var s' := TransferToken(s, u, d).value;
            forall a, key :: AssetBalance(s', a, key) == AssetBalance(s, a, key)
              + (if key == TokenKey(d) then TokenChange(u, a) else 0)
  {
    hide TokenKey, AdjustTokenBalance;
    AdjustMovesOne(s, d, u.from, u.amount, false);
    AdjustMovesOne(AdjustTokenBalance(s, d, u.from, u.amount, false).value, d, u.to.value, u.amount, true);
  }

  lemma TokenActionMovesHoldings(env: Env, s: Snapshot, u: UnsignedTokenOperation)
    requires TokenAction(env, s, u, env.tokenOpId(u)).Ok?
    ensures var s' := TokenAction(env, s, u, env.tokenOpId(u)).value;
            forall a, key :: AssetBalance(s', a, key) == AssetBalance(s, a, key)
              + (if key == TokenKeyOfOp(env, s, u) then TokenChange(u, a) else 0)
  {
    var id := env.tokenOpId(u);
    if u.kind == Create {
      CreateMovesHoldings(s, u, env.tokenIdOf(id));
    } else {
      hide TokenKey, AdjustTokenBalance, CreateToken, TransferToken;
      var d := s.tokens.definitions[u.tokenId];
      if u.kind == TokenTransfer {
        BothMove(s, u, d);
      } else if u.kind == TokenMint {
        var d' := d.(totalSupply := d.totalSupply + u.amount);
        KeyIgnoresSupply(d, d');
        AdjustMovesOne(s, d', u.to.value, u.amount, true);
      } else if u.kind == TokenBurn {
        AdjustMovesOne(s, d, u.from, u.amount, false);
      }
    }
  }

  lemma KeyIgnoresSupply(d: TokenDefinition, d': TokenDefinition)
    requires d' == d.(totalSupply := d'.totalSupply)
    ensures TokenKey(d') == TokenKey(d)
  {
    hide CanonicalKey;
  }

  lemma CreateMovesHoldings(s: Snapshot, u: UnsignedTokenOperation, id: Hash)
    requires u.kind == Create && CreateToken(s, u, id).Ok?
    ensures var s' := CreateToken(s, u, id).value;
            forall a, key :: AssetBalance(s', a, key) == AssetBalance(s, a, key)
              + (if key == CanonicalKey(CustomAsset(id, u.symbol, u.decimals)) then TokenChange(u, a) else 0)
  {
    hide CanonicalKey;
    var d := NewToken(u, id);
    if u.amount > 0 {
      AdjustMovesOne(SetToken(s, id, d), d, u.from, u.amount, true);
    }
  }

  lemma PaidToken(env: Env, s: Snapshot, o: TokenOperation)
    requires ApplyToken(env, s, o, env.tokenOpId(o.unsigned)).outcome == Done(true)
    ensures var id, paid := env.tokenOpId(o.unsigned), ChargeTokenFee(s, o.unsigned);
            && paid.Ok? && paid.value == s.(native := paid.value.native)
            && TokenAction(env, paid.value, o.unsigned, id).Ok?
            && ApplyToken(env, s, o, id).state.assets == TokenAction(env, paid.value, o.unsigned, id).value.assets
  {
    hide TokenAction, ValidateToken;
  }

  lemma TokenMovesHoldings(env: Env, s: Snapshot, o: TokenOperation)
    requires ApplyToken(env, s, o, env.tokenOpId(o.unsigned)).outcome == Done(true)
    ensures MovesHoldings(env, s, Token(o), ApplyToken(env, s, o, env.tokenOpId(o.unsigned)).state)
  {
    PaidToken(env, s, o);
    var paid := ChargeTokenFee(s, o.unsigned).value;
    TokenActionMovesHoldings(env, paid, o.unsigned);
    hide ApplyToken, ChargeTokenFee, TokenAction, TokenKey, CanonicalKey, TokenChange;
    var s' := ApplyToken(env, s, o, env.tokenOpId(o.unsigned)).state;
    var acted := TokenAction(env, paid, o.unsigned, env.tokenOpId(o.unsigned)).value;
    forall a, key ensures AssetBalance(s', a, key) == AssetBalance(s, a, key) + HoldingChange(env, s, Token(o), a, key) {
      assert AssetBalance(s', a, key) == AssetBalance(acted, a, key);
      assert AssetBalance(paid, a, key) == AssetBalance(s, a, key);
    }
  }

  /** An applied operation moves every holding of every account by its change. */
  lemma AppliedMovesHoldings(env: Env, s: Snapshot, op: Op)
    requires Apply(env, s, op).outcome == Done(true)
    ensures MovesHoldings(env, s, op, Apply(env, s, op).state)
  {
    hide CanonicalKey, TokenKey;
    match op
    case Transfer(tx) => TransferWrites(env, s, tx);
    case Bridge(o) => BridgeMovesHoldings(env, s, o);
    case Token(o) => TokenMovesHoldings(env, s, o);
    case Swap(o) => SwapMovesHoldings(env, s, o);
    case Reserve(o) => ReserveWrites(env, s, o);
    case Program(o, height) => ProgramWrites(env, s, o, height);
    case Credit(a, amount) =>
  }

  /* ---------- the reserve ---------- */

  /** What an applied operation enters in the reserve ledger. */
  function EntryOf(op: Op): ReserveLedger {
    match op
    case Bridge(o) =>
      if !IsSupportedUsdc(o.assetId) then EMPTY_RESERVE
      else if o.kind == BridgeMint then EMPTY_RESERVE.(verifiedUsdc := o.amount)
      else EMPTY_RESERVE.(releasedUsdc := o.amount)
    case Swap(o) =>
      if o.unsigned.kind == MintMna then EMPTY_RESERVE.(backedMna := o.unsigned.amountMna)
      else EMPTY_RESERVE.(redeemedMna := o.unsigned.amountMna)
    case Reserve(o) =>
      if IsSupportedSol(o.collateralAsset) then
        if o.kind == VerifyDeposit then
          EMPTY_RESERVE.(verifiedLamports := o.collateralAmount, verifiedSolUsd := o.amountUsdc, backedMna := o.amountMna)
        else EMPTY_RESERVE.(releasedLamports := o.collateralAmount, releasedSolUsd := o.amountUsdc)
      else if o.kind == VerifyDeposit then EMPTY_RESERVE.(verifiedUsdc := o.amountUsdc)
      else EMPTY_RESERVE.(releasedUsdc := o.amountUsdc)
    case _ => EMPTY_RESERVE
  }

  /** Every counter grows by its entry; what is redeemed is no longer backed. */
  predicate Entered(l: ReserveLedger, e: ReserveLedger, l': ReserveLedger) {
    && l'.verifiedUsdc == l.verifiedUsdc + e.verifiedUsdc && l'.releasedUsdc == l.releasedUsdc + e.releasedUsdc
    && l'.backedMna == l.backedMna + e.backedMna - e.redeemedMna && l'.redeemedMna == l.redeemedMna + e.redeemedMna
    && l'.verifiedLamports == l.verifiedLamports + e.verifiedLamports
    && l'.releasedLamports == l.releasedLamports + e.releasedLamports
    && l'.verifiedSolUsd == l.verifiedSolUsd + e.verifiedSolUsd && l'.releasedSolUsd == l.releasedSolUsd + e.releasedSolUsd
    && l'.paused == l.paused
  }

  lemma SwapEnters(env: Env, s: Snapshot, o: MnaSwapOperation)
    requires ApplySwap(env, s, o).outcome == Done(true)
    ensures Entered(s.mna.reserve, EntryOf(Op.Swap(o)), ApplySwap(env, s, o).state.mna.reserve)
  {
    hide CanonicalKey, IsSupportedUsdc, ValidateSwap, CurrentReserveUsd;
  }

  lemma DepositEnters(s: Snapshot, o: MnaReserveOperation)
    requires o.kind == VerifyDeposit && DepositEffect(s, o).Ok?
    ensures Entered(s.mna.reserve, EntryOf(Op.Reserve(o)), DepositEffect(s, o).value.mna.reserve)
  {
    hide IsSupportedSol;
  }

  lemma ReleaseEnters(s: Snapshot, o: MnaReserveOperation)
    requires o.kind == Release && ReleaseEffect(s, o).Ok?
    ensures Entered(s.mna.reserve, EntryOf(Op.Reserve(o)), ReleaseEffect(s, o).value.mna.reserve)
  {
    hide IsSupportedSol;
  }

  lemma ReserveEnters(env: Env, s: Snapshot, o: MnaReserveOperation)
    requires ApplyReserve(env, s, o).outcome == Done(true)
    ensures Entered(s.mna.reserve, EntryOf(Op.Reserve(o)), ApplyReserve(env, s, o).state.mna.reserve)
  {
    hide ValidateReserve, CurrentReserveUsd, DepositEffect, ReleaseEffect, Entered, EntryOf;
    var id := ValidateReserve(env, s, o).value;
    var marked := s.(mna := s.mna.(processedReserves := s.mna.processedReserves + {id}));
    if o.kind == VerifyDeposit {
      DepositEnters(marked, o);
    } else {
      ReleaseEnters(marked, o);
    }
  }

  lemma BridgeEnters(s: Snapshot, o: AssetOperation)
    requires ApplyAssetOperation(s, o).outcome == Done(true)
    ensures Entered(s.mna.reserve, EntryOf(Bridge(o)), ApplyAssetOperation(s, o).state.mna.reserve)
  {
    hide CanonicalKey, IsSupportedUsdc;
  }

  /** An applied operation moves every counter of the reserve by its entry. */
  lemma AppliedMovesReserve(env: Env, s: Snapshot, op: Op)
    requires Apply(env, s, op).outcome == Done(true)
    ensures Entered(s.mna.reserve, EntryOf(op), Apply(env, s, op).state.mna.reserve)
  {
    match op
    case Transfer(tx) => TransferWrites(env, s, tx);
    case Bridge(o) => BridgeEnters(s, o);
    case Token(o) => TokenWrites(env, s, o, env.tokenOpId(o.unsigned));
    case Swap(o) => SwapEnters(env, s, o);
    case Reserve(o) => ReserveEnters(env, s, o);
    case Program(o, height) => ProgramWrites(env, s, o, height);
    case Credit(a, amount) =>
  }

  /* ---------- transfers ---------- */

  /** A transfer arrives: the receiver has the amount, the sender is short of amount and fee, nobody else notices. To
      oneself it costs the fee. The faucet key pays neither. */
  lemma TransferArrives(env: Env, s: Snapshot, tx: Transaction)
    requires Metered(env) && Apply(env, s, Transfer(tx)).outcome == Done(true)
    ensures var u, s' := tx.unsigned, Apply(env, s, Transfer(tx)).state;
            var faucet := FromFaucet(env, s, u);
            && s' == s.(native := s'.native) && s'.native.feePool == s.native.feePool + u.fee
            && (u.from != u.to && !faucet ==>
                  NativeOf(s', u.from) == NativeOf(s, u.from) - u.amount - u.fee)
            && (u.from != u.to || faucet ==> NativeOf(s', u.to) == NativeOf(s, u.to) + u.amount)
            && (u.from == u.to && !faucet ==> NativeOf(s', u.to) == NativeOf(s, u.to) - u.fee)
            && forall a | a != u.to && (a != u.from || faucet) :: NativeOf(s', a) == NativeOf(s, a)
  {
    TransferWrites(env, s, tx);
    AppliedMovesNative(env, s, Transfer(tx));
    hide Apply, FromFaucet;
  }

  /* ---------- rejected operations, and runs ---------- */

  /** What a rejected operation leaves in an account: a faucet transfer that overflows the fee pool has paid already. */
  function LeftBehind(env: Env, s: Snapshot, op: Op, outcome: Outcome, a: Address): nat {
    if op.Transfer? && a == op.tx.unsigned.to && FromFaucet(env, s, op.tx.unsigned) && outcome == Failed(FeePoolOverflow)
    then op.tx.unsigned.amount else 0
  }

  lemma RejectedSwap(env: Env, s: Snapshot, o: MnaSwapOperation)
    requires ApplySwap(env, s, o).outcome.Failed?
    ensures var s' := ApplySwap(env, s, o).state; s'.native == s.native && s'.assets == s.assets
  {
    hide SwapEffect, ValidateSwap;
  }

  lemma RejectedReserve(env: Env, s: Snapshot, o: MnaReserveOperation)
    requires ApplyReserve(env, s, o).outcome.Failed?
    ensures var s' := ApplyReserve(env, s, o).state; s'.native == s.native && s'.assets == s.assets
  {
    hide ReserveEffect, ValidateReserve;
  }

  lemma RejectedTransfer(env: Env, s: Snapshot, tx: Transaction)
    requires ApplyTransaction(env, s, tx).outcome.Failed?
    ensures var u, step := tx.unsigned, ApplyTransaction(env, s, tx);
            && step.state == s.(native := step.state.native) && step.state.native.feePool == s.native.feePool
            && forall a :: NativeOf(step.state, a) == NativeOf(s, a) + LeftBehind(env, s, Transfer(tx), step.outcome, a)
  {
    hide ValidateTransaction, IsDevnet;
    NoFeeErrorBefore(env, s, tx);
  }

  lemma NoFeeErrorBefore(env: Env, s: Snapshot, tx: Transaction)
    ensures ValidateTransaction(env, s, tx) != Err(FeePoolOverflow)
  {
  }

  /** A rejected operation moves no holding, and no balance except that one. */
  lemma RejectedMovesNothing(env: Env, s: Snapshot, op: Op)
    requires Apply(env, s, op).outcome.Failed?
    ensures var step := Apply(env, s, op);
            && step.state.native.feePool == s.native.feePool
            && (forall a, key :: AssetBalance(step.state, a, key) == AssetBalance(s, a, key))
            && forall a :: NativeOf(step.state, a) == NativeOf(s, a) + LeftBehind(env, s, op, step.outcome, a)
  {
    hide CanonicalKey, TokenEffect, ProgramEffect, ValidateToken, IsSupportedUsdc;
    match op
    case Transfer(tx) => RejectedTransfer(env, s, tx);
    case Bridge(o) => BridgeWrites(s, o);
    case Token(o) =>
    case Swap(o) => RejectedSwap(env, s, o);
    case Reserve(o) => RejectedReserve(env, s, o);
    case Program(o, height) =>
    case Credit(a, amount) =>
  }

  /** The changes of the applied operations of a run, for one account and one key. */
  function NativeTurnover(env: Env, s: Snapshot, ops: seq<Op>, a: Address): int
    decreases |ops|
  {
    if ops == [] then 0
    else
      var step := Apply(env, s, ops[0]);
      (if step.outcome == Done(true) then NativeChange(env, s, ops[0], a) else 0)
        + NativeTurnover(env, step.state, ops[1..], a)
  }

  function HoldingTurnover(env: Env, s: Snapshot, ops: seq<Op>, a: Address, key: string): int
    decreases |ops|
  {
    if ops == [] then 0
    else
      var step := Apply(env, s, ops[0]);
      (if step.outcome == Done(true) then HoldingChange(env, s, ops[0], a, key) else 0)
        + HoldingTurnover(env, step.state, ops[1..], a, key)
  }

  /** Every account's statement adds up over every accepted run, in native units and under every key. */
  lemma {:induction false} StatementAddsUp(env: Env, s: Snapshot, ops: seq<Op>, a: Address, key: string)
    requires Metered(env)
    ensures var end := Run(env, s, ops);
            end.Some? ==>
              && NativeOf(end.value, a) == NativeOf(s, a) + NativeTurnover(env, s, ops, a)
              && AssetBalance(end.value, a, key) == AssetBalance(s, a, key) + HoldingTurnover(env, s, ops, a, key)
    decreases |ops|
  {
    hide Apply, NativeChange, HoldingChange, AssetBalance, NativeOf, Metered;
    if ops != [] && Apply(env, s, ops[0]).outcome.Done? {
      if Apply(env, s, ops[0]).outcome == Done(true) {
        AppliedMovesNative(env, s, ops[0]);
        AppliedMovesHoldings(env, s, ops[0]);
      } else {
        DuplicateChangesNothing(env, s, ops[0]);
      }
      StatementAddsUp(env, Apply(env, s, ops[0]).state, ops[1..], a, key);
    }
  }
}
