/** The ledger object: fields updated in place, each method proved against its function in `Ledger`. */
module LedgerState {
  import opened Wrappers
  import opened Core
  import opened Ledger

  class State {
    const env: Env
    const chainId: string
    const feeMinimum: u128
    var native: NativeBook
    var assets: AssetBook
    var tokens: TokenBook
    var mna: MnaBook
    var programs: ProgramBook

    constructor (env: Env, s: Snapshot)
      ensures this.env == env && View() == s
    {
      this.env, chainId, feeMinimum := env, s.chainId, s.feeMinimum;
      native, assets, tokens, mna, programs := s.native, s.assets, s.tokens, s.mna, s.programs;
    }

    /** The snapshot of the current fields. */
    function View(): Snapshot
      reads this
    {
      Snapshot(chainId, feeMinimum, native, assets, tokens, mna, programs)
    }

    /** `*self = next`. */
    method Restore(s: Snapshot)
      requires s.chainId == chainId && s.feeMinimum == feeMinimum
      modifies this
      ensures View() == s
    {
      native, assets, tokens, mna, programs := s.native, s.assets, s.tokens, s.mna, s.programs;
    }

    method ApplyTransaction(tx: Transaction) returns (r: Outcome)
      modifies this
      ensures Step(View(), r) == Ledger.ApplyTransaction(env, old(View()), tx)
    {
      var checked := ValidateTransaction(env, View(), tx);
      if checked.Err? {
        return Failed(checked.error);
      }
      var u := tx.unsigned;
      var sender, receiver := AccountOf(View(), u.from), AccountOf(View(), u.to);
      if FromFaucet(env, View(), u) {
        if receiver.balance + u.amount > U128_MAX {
          return Failed(BalanceOverflow);
        }
        native := native.(accounts := native.accounts[u.to := Account(receiver.balance + u.amount, receiver.nonce)]);
        if native.feePool + u.fee > U128_MAX {
          return Failed(FeePoolOverflow);
        }
        native := native.(feePool := native.feePool + u.fee);
        return Done(true);
      }
      if sender.balance < u.amount + u.fee {
        return Failed(InsufficientBalance);
      }
      if sender.nonce == U64_MAX {
        return Failed(NonceOverflow);
      }
      if native.feePool + u.fee > U128_MAX {
        return Failed(FeePoolOverflow);
      }
      var rest := sender.balance - (u.amount + u.fee);
      if u.from == u.to {
        native := native.(accounts := native.accounts[u.from := Account(rest + u.amount, sender.nonce + 1)]);
      } else {
        if receiver.balance + u.amount > U128_MAX {
          return Failed(BalanceOverflow);
        }
        native := native.(accounts := native.accounts[u.from := Account(rest, sender.nonce + 1)]);
        native := native.(accounts := native.accounts[u.to := Account(receiver.balance + u.amount, receiver.nonce)]);
      }
      native := native.(feePool := native.feePool + u.fee);
      r := Done(true);
    }

    method ApplyAssetOperation(op: AssetOperation) returns (r: Outcome)
      modifies this
      ensures Step(View(), r) == Ledger.ApplyAssetOperation(old(View()), op)
    {
      if op.version != 1 {
        return Failed(UnsupportedVersion);
      }
      if op.amount == 0 {
        return Failed(ZeroAmount);
      }
      if op.assetId.namespace == "worldstreet" || op.assetId.contract.None? {
        return Failed(InvalidAssetOperationAsset);
      }
      if op.operationId in assets.processed {
        return Done(false);
      }
      assets := assets.(processed := assets.processed + {op.operationId});
      assets := assets.(records := assets.records[op.operationId := op]);
      r := BookAssetOperation(op);
    }

    /** The reserve totals and the balance, once the replay id and the record are written. */
    method BookAssetOperation(op: AssetOperation) returns (r: Outcome)
      modifies this
      ensures Step(View(), r) == RecordedAssetOperation(old(View()), op)
    {
      if IsSupportedUsdc(op.assetId) {
        var l := mna.reserve;
        match op.kind {
          case BridgeMint =>
            if l.verifiedUsdc + op.amount > U128_MAX {
              return Failed(BalanceOverflow);
            }
            mna := mna.(reserve := l.(verifiedUsdc := l.verifiedUsdc + op.amount));
          case BridgeBurn =>
            if l.releasedUsdc + op.amount > U128_MAX {
              return Failed(BalanceOverflow);
            }
            mna := mna.(reserve := l.(releasedUsdc := l.releasedUsdc + op.amount));
        }
      }
      assert BridgedReserve(old(View()).mna.reserve, op) == Ok(mna.reserve);
      var key := CanonicalKey(op.assetId);
      var current := AssetBalance(View(), op.address, key);
      assets := assets.(balances := assets.balances[op.address := AssetsOf(View(), op.address)]);
      match op.kind {
        case BridgeMint =>
          if current + op.amount > U128_MAX {
            return Failed(AssetBalanceOverflow);
          }
          assets := SetHolding(View(), op.address, key, current + op.amount).assets;
        case BridgeBurn =>
          if current < op.amount {
            return Failed(InsufficientAssetBalance);
          }
          assets := SetHolding(View(), op.address, key, current - op.amount).assets;
      }
      r := Done(true);
    }

    method ApplyMnaSwap(op: MnaSwapOperation) returns (r: Outcome)
      modifies this
      ensures Step(View(), r) == ApplySwap(env, old(View()), op)
    {
      var checked := ValidateSwap(env, View(), op);
      if checked.Err? {
        return Failed(checked.error);
      }
      var id := checked.value;
      if id in mna.processedSwaps {
        return Done(false);
      }
      mna := mna.(processedSwaps := mna.processedSwaps + {id});
      var next := new State(env, View());
      r := next.ExecuteSwap(op, id);
      if r.Done? {
        Restore(next.View());
      }
    }

    /** The body of a swap, on the clone. */
    method ExecuteSwap(op: MnaSwapOperation, id: Hash) returns (r: Outcome)
      modifies this
      ensures r == Adopt(old(View()), SwapEffect(old(View()), op, id)).outcome
      ensures r.Done? ==> Ok(View()) == SwapEffect(old(View()), op, id)
    {
      hide CanonicalKey;
      var u, account := op.unsigned, AccountOf(View(), op.unsigned.from);
      if account.balance < u.fee {
        return Failed(InsufficientFeeBalance);
      }
      if account.nonce == U64_MAX {
        return Failed(NonceOverflow);
      }
      match u.kind {
        case MintMna => r := BuyMna(op, id);
        case RedeemMna => r := SellMna(op, id);
      }
    }

    method BuyMna(op: MnaSwapOperation, id: Hash) returns (r: Outcome)
      requires AccountOf(View(), op.unsigned.from).balance >= op.unsigned.fee
      requires AccountOf(View(), op.unsigned.from).nonce < U64_MAX
      modifies this
      ensures r == Adopt(old(View()), MintEffect(old(View()), op, id)).outcome
      ensures r.Done? ==> Ok(View()) == MintEffect(old(View()), op, id)
    {
      hide CanonicalKey;
      var u := op.unsigned;
      var key := CanonicalKey(u.collateralAsset);
      var current, account := AssetBalance(View(), u.from, key), AccountOf(View(), u.from);
      if current < u.amountUsdc {
        return Failed(MnaSwapInsufficientBalance);
      }
      assets := SetHolding(View(), u.from, key, current - u.amountUsdc).assets;
      if account.balance - u.fee + u.amountMna > U128_MAX {
        return Failed(BalanceOverflow);
      }
      native := native.(accounts := native.accounts[u.from := Account(account.balance - u.fee + u.amountMna,
        account.nonce + 1)]);
      if mna.reserve.backedMna + u.amountMna > U128_MAX {
        return Failed(BalanceOverflow);
      }
      if CurrentReserveUsd(mna.reserve) < SaturatingDouble(mna.reserve.backedMna + u.amountMna) {
        return Failed(MnaReserveInsufficient);
      }
      mna := mna.(reserve := mna.reserve.(backedMna := mna.reserve.backedMna + u.amountMna));
      mna := mna.(swapRecords := mna.swapRecords[id := op]);
      r := Done(true);
    }

    method SellMna(op: MnaSwapOperation, id: Hash) returns (r: Outcome)
      requires AccountOf(View(), op.unsigned.from).balance >= op.unsigned.fee
      requires AccountOf(View(), op.unsigned.from).nonce < U64_MAX
      modifies this
      ensures r == Adopt(old(View()), RedeemEffect(old(View()), op, id)).outcome
      ensures r.Done? ==> Ok(View()) == RedeemEffect(old(View()), op, id)
    {
      hide CanonicalKey, WrappingAdd;
      var u := op.unsigned;
      var key := CanonicalKey(u.collateralAsset);
      var current, account := AssetBalance(View(), u.from, key), AccountOf(View(), u.from);
      var cost := WrappingAdd(u.amountMna, u.fee);
      if account.balance < cost {
        return Failed(MnaSwapInsufficientBalance);
      }
      native := native.(accounts := native.accounts[u.from := Account(account.balance - cost, account.nonce + 1)]);
      if current + u.amountUsdc > U128_MAX {
        return Failed(AssetBalanceOverflow);
      }
      assets := SetHolding(View(), u.from, key, current + u.amountUsdc).assets;
      if mna.reserve.backedMna < u.amountMna {
        return Failed(MnaReserveInsufficient);
      }
      mna := mna.(reserve := mna.reserve.(backedMna := mna.reserve.backedMna - u.amountMna));
      if mna.reserve.redeemedMna + u.amountMna > U128_MAX {
        return Failed(BalanceOverflow);
      }
      mna := mna.(reserve := mna.reserve.(redeemedMna := mna.reserve.redeemedMna + u.amountMna));
      mna := mna.(swapRecords := mna.swapRecords[id := op]);
      r := Done(true);
    }

    method ApplyMnaReserveOperation(op: MnaReserveOperation) returns (r: Outcome)
      modifies this
      ensures Step(View(), r) == ApplyReserve(env, old(View()), op)
    {
      var checked := ValidateReserve(env, View(), op);
      if checked.Err? {
        return Failed(checked.error);
      }
      var id := checked.value;
      if id in mna.processedReserves {
        return Done(false);
      }
      mna := mna.(processedReserves := mna.processedReserves + {id});
      var next := new State(env, View());
      r := next.ExecuteReserve(op);
      if r.Failed? {
        return;
      }
      if CurrentReserveUsd(next.mna.reserve) < SaturatingDouble(next.mna.reserve.backedMna) {
        return Failed(MnaReserveInsufficient);
      }
      next.mna := next.mna.(reserveRecords := next.mna.reserveRecords[id := op]);
      Restore(next.View());
    }

    /** Deposit or release, on the clone. */
    method ExecuteReserve(op: MnaReserveOperation) returns (r: Outcome)
      modifies this
      ensures var effect := if op.kind == VerifyDeposit then DepositEffect(old(View()), op)
              else ReleaseEffect(old(View()), op);
              r == Adopt(old(View()), effect).outcome && (r.Done? ==> Ok(View()) == effect)
    {
      var isSol := IsSupportedSol(op.collateralAsset);
      match op.kind {
        case VerifyDeposit =>
          if isSol {
            if mna.reserve.verifiedLamports + op.collateralAmount > U128_MAX {
              return Failed(BalanceOverflow);
            }
            var lamports := mna.reserve.verifiedLamports + op.collateralAmount;
            mna := mna.(reserve := mna.reserve.(verifiedLamports := lamports));
            if mna.reserve.verifiedSolUsd + op.amountUsdc > U128_MAX {
              return Failed(BalanceOverflow);
            }
            mna := mna.(reserve := mna.reserve.(verifiedSolUsd := mna.reserve.verifiedSolUsd + op.amountUsdc));
            var account := AccountOf(View(), op.address);
            if account.balance + op.amountMna > U128_MAX {
              return Failed(BalanceOverflow);
            }
            native := native.(accounts := native.accounts[op.address := Account(account.balance + op.amountMna,
              account.nonce)]);
            if mna.reserve.backedMna + op.amountMna > U128_MAX {
              return Failed(BalanceOverflow);
            }
            mna := mna.(reserve := mna.reserve.(backedMna := mna.reserve.backedMna + op.amountMna));
          } else {
            if mna.reserve.verifiedUsdc + op.amountUsdc > U128_MAX {
              return Failed(BalanceOverflow);
            }
            mna := mna.(reserve := mna.reserve.(verifiedUsdc := mna.reserve.verifiedUsdc + op.amountUsdc));
          }
        case Release =>
          if isSol {
            if SaturatingSub(mna.reserve.verifiedSolUsd, mna.reserve.releasedSolUsd) < op.amountUsdc {
              return Failed(MnaReserveInsufficient);
            }
            if mna.reserve.releasedSolUsd + op.amountUsdc > U128_MAX {
              return Failed(BalanceOverflow);
            }
            mna := mna.(reserve := mna.reserve.(releasedSolUsd := mna.reserve.releasedSolUsd + op.amountUsdc));
            if mna.reserve.releasedLamports + op.collateralAmount > U128_MAX {
              return Failed(BalanceOverflow);
            }
            var lamports := mna.reserve.releasedLamports + op.collateralAmount;
            mna := mna.(reserve := mna.reserve.(releasedLamports := lamports));
          } else {
            if SaturatingSub(mna.reserve.verifiedUsdc, mna.reserve.releasedUsdc) < op.amountUsdc {
              return Failed(MnaReserveInsufficient);
            }
            if mna.reserve.releasedUsdc + op.amountUsdc > U128_MAX {
              return Failed(BalanceOverflow);
            }
            mna := mna.(reserve := mna.reserve.(releasedUsdc := mna.reserve.releasedUsdc + op.amountUsdc));
          }
      }
      r := Done(true);
    }

    method ApplyTokenOperation(op: TokenOperation, expectedId: Hash) returns (r: Outcome)
      modifies this
      ensures Step(View(), r) == ApplyToken(env, old(View()), op, expectedId)
    {
      if env.tokenOpId(op.unsigned) != expectedId {
        return Failed(InvalidTokenId);
      }
      if expectedId in tokens.processed {
        return Done(false);
      }
      var checked := ValidateToken(env, View(), op);
      if checked.Err? {
        return Failed(checked.error);
      }
      var next := new State(env, View());
      r := next.ExecuteToken(op, expectedId);
      if r.Done? {
        Restore(next.View());
      }
    }

    /** The fee, the action and the record of a token operation, on the clone. */
    method ExecuteToken(op: TokenOperation, id: Hash) returns (r: Outcome)
      modifies this
      ensures r == Adopt(old(View()), TokenEffect(env, old(View()), op, id)).outcome
      ensures r.Done? ==> Ok(View()) == TokenEffect(env, old(View()), op, id)
    {
      var u := op.unsigned;
      if u.from !in native.accounts {
        return Failed(InsufficientFeeBalance);
      }
      var sender := native.accounts[u.from];
      if sender.balance < u.fee {
        return Failed(InsufficientFeeBalance);
      }
      if sender.nonce == U64_MAX {
        return Failed(NonceOverflow);
      }
      native := native.(accounts := native.accounts[u.from := Account(sender.balance - u.fee, sender.nonce + 1)]);
      if native.feePool + u.fee > U128_MAX {
        return Failed(FeePoolOverflow);
      }
      native := native.(feePool := native.feePool + u.fee);
      assert Ok(View()) == ChargeTokenFee(old(View()), u);
      r := ExecuteTokenAction(u, id);
      if r.Failed? {
        return;
      }
      tokens := tokens.(processed := tokens.processed + {id});
      tokens := tokens.(records := tokens.records[id := op]);
    }

    method ExecuteTokenAction(u: UnsignedTokenOperation, id: Hash) returns (r: Outcome)
      modifies this
      ensures r == Adopt(old(View()), TokenAction(env, old(View()), u, id)).outcome
      ensures r.Done? ==> Ok(View()) == TokenAction(env, old(View()), u, id)
    {
      if u.kind == Create {
        r := ExecuteCreate(u, env.tokenIdOf(id));
        return;
      }
      if u.tokenId !in tokens.definitions {
        return Failed(TokenNotFound);
      }
      var d := tokens.definitions[u.tokenId];
      if u.kind == TokenTransfer {
        r := ExecuteTransfer(u, d);
      } else if u.kind == TokenMint {
        r := ExecuteMint(u, d);
      } else if u.kind == TokenBurn {
        r := ExecuteBurn(u, d);
      } else if u.kind == Freeze || u.kind == Unfreeze {
        r := ExecuteFreeze(u, d);
      } else {
        r := ExecuteGovernance(u, d);
      }
    }

    method ExecuteCreate(u: UnsignedTokenOperation, tokenId: Hash) returns (r: Outcome)
      modifies this
      ensures r == Adopt(old(View()), CreateToken(old(View()), u, tokenId)).outcome
      ensures r.Done? ==> Ok(View()) == CreateToken(old(View()), u, tokenId)
    {
      if tokenId in tokens.definitions {
        return Failed(TokenAlreadyExists);
      }
      var d := NewToken(u, tokenId);
      tokens := tokens.(definitions := tokens.definitions[tokenId := d]);
      r := Done(true);
      if u.amount > 0 {
        r := AdjustTokenBalance(d, u.from, u.amount, true);
      }
    }

    method ExecuteTransfer(u: UnsignedTokenOperation, d: TokenDefinition) returns (r: Outcome)
      modifies this
      ensures r == Adopt(old(View()), TransferToken(old(View()), u, d)).outcome
      ensures r.Done? ==> Ok(View()) == TransferToken(old(View()), u, d)
    {
      if u.to.None? {
        return Failed(TokenRecipientRequired);
      }
      var free := CheckTransferable(View(), d, u.from, u.to.value);
      if free.Err? {
        return Failed(free.error);
      }
      r := AdjustTokenBalance(d, u.from, u.amount, false);
      if r.Done? {
        r := AdjustTokenBalance(d, u.to.value, u.amount, true);
      }
    }

    method ExecuteMint(u: UnsignedTokenOperation, d: TokenDefinition) returns (r: Outcome)
      modifies this
      ensures r == Adopt(old(View()), MintToken(old(View()), u, d)).outcome
      ensures r.Done? ==> Ok(View()) == MintToken(old(View()), u, d)
    {
      if d.mintAuthority != Some(u.from) {
        return Failed(TokenUnauthorized);
      }
      if u.to.None? {
        return Failed(TokenRecipientRequired);
      }
      if d.paused || (d.tokenId, u.to.value) in tokens.frozen {
        return Failed(if d.paused then TokenPaused else TokenAccountFrozen);
      }
      if d.totalSupply + u.amount > U128_MAX {
        return Failed(TokenSupplyCapExceeded);
      }
      var total := d.totalSupply + u.amount;
      if d.maxSupply.Some? && total > d.maxSupply.value {
        return Failed(TokenSupplyCapExceeded);
      }
      var definition := d.(totalSupply := total);
      r := AdjustTokenBalance(definition, u.to.value, u.amount, true);
      if r.Done? {
        tokens := tokens.(definitions := tokens.definitions[definition.tokenId := definition]);
      }
    }

    method ExecuteBurn(u: UnsignedTokenOperation, d: TokenDefinition) returns (r: Outcome)
      modifies this
      ensures r == Adopt(old(View()), BurnToken(old(View()), u, d)).outcome
      ensures r.Done? ==> Ok(View()) == BurnToken(old(View()), u, d)
    {
      var free := CheckTransferable(View(), d, u.from, u.from);
      if free.Err? {
        return Failed(free.error);
      }
      r := AdjustTokenBalance(d, u.from, u.amount, false);
      if r.Failed? {
        return;
      }
      if d.totalSupply < u.amount {
        return Failed(TokenInsufficientBalance);
      }
      tokens := tokens.(definitions := tokens.definitions[d.tokenId := d.(totalSupply := d.totalSupply - u.amount)]);
    }

    method ExecuteFreeze(u: UnsignedTokenOperation, d: TokenDefinition) returns (r: Outcome)
      modifies this
      ensures r == Adopt(old(View()), FreezeToken(old(View()), u, d)).outcome
      ensures r.Done? ==> Ok(View()) == FreezeToken(old(View()), u, d)
    {
      if d.freezeAuthority != Some(u.from) {
        return Failed(TokenUnauthorized);
      }
      if u.to.None? {
        return Failed(TokenRecipientRequired);
      }
      if u.kind == Freeze {
        tokens := tokens.(frozen := tokens.frozen + {(d.tokenId, u.to.value)});
      } else {
        tokens := tokens.(frozen := tokens.frozen - {(d.tokenId, u.to.value)});
      }
      r := Done(true);
    }

    method ExecuteGovernance(u: UnsignedTokenOperation, d: TokenDefinition) returns (r: Outcome)
      modifies this
      ensures r == Adopt(old(View()), GovernToken(old(View()), u, d)).outcome
      ensures r.Done? ==> Ok(View()) == GovernToken(old(View()), u, d)
    {
      if d.creator != u.from || (u.kind == UpdateMetadata && |u.metadataUri| > 256) {
        return Failed(TokenUnauthorized);
      }
      var definition := d;
      if u.kind == Pause || u.kind == Unpause {
        definition := definition.(paused := u.kind == Pause);
      } else if u.kind == UpdateMetadata {
        definition := definition.(metadataUri := u.metadataUri);
        definition := definition.(metadataHash := u.metadataHash);
      } else {
        definition := definition.(mintAuthority := u.mintAuthority);
        definition := definition.(burnAuthority := u.burnAuthority);
        definition := definition.(freezeAuthority := u.freezeAuthority);
      }
      tokens := tokens.(definitions := tokens.definitions[d.tokenId := definition]);
      r := Done(true);
    }

    method AdjustTokenBalance(d: TokenDefinition, a: Address, amount: u128, add: bool) returns (r: Outcome)
      modifies this
      ensures var effect := Ledger.AdjustTokenBalance(old(View()), d, a, amount, add);
              r == Adopt(old(View()), effect).outcome && (r.Done? ==> Ok(View()) == effect)
    {
      var key := TokenKey(d);
      var current := AssetBalance(View(), a, key);
      if add {
        if current + amount > U128_MAX {
          return Failed(TokenBalanceOverflow);
        }
        assets := SetHolding(View(), a, key, current + amount).assets;
      } else {
        if current < amount {
          return Failed(TokenInsufficientBalance);
        }
        assets := SetHolding(View(), a, key, current - amount).assets;
      }
      r := Done(true);
    }

    method ApplyProgramOperation(op: ProgramOperation, height: nat) returns (r: Outcome)
      modifies this
      ensures Step(View(), r) == ApplyProgram(env, old(View()), op, height)
    {
      if env.programOpId(op) in programs.receipts {
        return Done(false);
      }
      var next := new State(env, View());
      r := next.ExecuteProgram(op, height);
      if r.Done? {
        Restore(next.View());
      }
    }

    /** Checks, action, fee and receipt of a program operation, on the clone. */
    method ExecuteProgram(op: ProgramOperation, height: nat) returns (r: Outcome)
      modifies this
      ensures r == Adopt(old(View()), ProgramEffect(env, old(View()), op, height)).outcome
      ensures r.Done? ==> Ok(View()) == ProgramEffect(env, old(View()), op, height)
    {
      if op.version != 1 {
        return Failed(UnsupportedVersion);
      }
      if op.chainId != chainId {
        return Failed(WrongChainId);
      }
      var owner := env.addressOf(op.publicKey);
      if !env.programSigned(op) {
        return Failed(InvalidSignature);
      }
      var account := AccountOf(View(), owner);
      native := native.(accounts := native.accounts[owner := account]);
      if op.nonce != account.nonce {
        return Failed(NonceMismatch(account.nonce, op.nonce));
      }
      var authorised := AuthorisedFee(View(), op);
      if authorised.Err? {
        return Failed(authorised.error);
      }
      if op.fee < authorised.value {
        return Failed(FeeTooLow);
      }
      if account.balance < authorised.value {
        return Failed(InsufficientBalance);
      }
      r := RunAndSettleProgram(op, owner, authorised.value, height);
    }

    method RunAndSettleProgram(op: ProgramOperation, owner: Address, authorised: u128, height: nat) returns (r: Outcome)
      modifies this
      ensures var effect := SettledProgram(env, old(View()), op, owner, authorised, height);
              r == Adopt(old(View()), effect).outcome && (r.Done? ==> Ok(View()) == effect)
    {
      var status, data, gasUsed, error;
      r, status, data, gasUsed, error := ExecuteProgramAction(op, owner, height);
      if r.Failed? {
        return;
      }
      var charged := ChargedFee(View(), op, authorised, gasUsed);
      if charged.Err? {
        return Failed(charged.error);
      }
      var payer := AccountOf(View(), owner);
      if payer.nonce == U64_MAX {
        return Failed(NonceOverflow);
      }
      native := SetAccount(View(), owner, Account(WrappingSub(payer.balance, charged.value), payer.nonce + 1)).native;
      if native.feePool + charged.value > U128_MAX {
        return Failed(FeePoolOverflow);
      }
      native := native.(feePool := native.feePool + charged.value);
      var receipt := ProgramReceipt(op.programId, op.kind, status, data, gasUsed, op.gasLimit, charged.value, error);
      programs := programs.(receipts := programs.receipts[env.programOpId(op) := receipt]);
    }

    method ExecuteProgramAction(op: ProgramOperation, owner: Address, height: nat)
      returns (r: Outcome, status: string, data: seq<byte>, gasUsed: u64, error: Option<string>)
      modifies this
      ensures var run := ProgramAction(env, old(View()), op, owner, height);
              if r.Done? then r == Done(true) && run == Ok(ProgramRun(View(), status, data, gasUsed, error))
              else run == Err(r.error)
    {
      status, data, gasUsed, error := "confirmed", [], 0, None;
      match op.kind {
        case Deploy =>
          if op.programId in programs.live || op.programId in programs.closed {
            return Failed(ProgramAlreadyExists), status, data, gasUsed, error;
          }
          if env.packageId(op.package) != Some(op.programId) {
            return Failed(InvalidProgramOperation), status, data, gasUsed, error;
          }
          programs := programs.(live := programs.live[op.programId := ProgramRecord(op.package, owner, height, map[])]);
        case Call =>
          if op.gasLimit == 0 {
            return Failed(InvalidProgramOperation), status, data, gasUsed, error;
          }
          if op.programId !in programs.live {
            return Failed(ProgramNotFound), status, data, gasUsed, error;
          }
          if env.packageId(programs.live[op.programId].package).None? {
            return Failed(InvalidProgramOperation), status, data, gasUsed, error;
          }
          match env.execute(programs.live[op.programId].package, op.gasLimit) {
            case RunOk(bytes, used) => status, data, gasUsed := "success", bytes, used;
            case RunErr(message) => status, gasUsed, error := "failed", op.gasLimit, Some(message);
          }
        case StorageSet =>
          if |op.key| > 128 || |op.value| > 4096 {
            return Failed(InvalidProgramOperation), status, data, gasUsed, error;
          }
          if op.programId !in programs.live {
            return Failed(ProgramNotFound), status, data, gasUsed, error;
          }
          var record := programs.live[op.programId];
          if record.creator != owner {
            return Failed(ProgramUnauthorized), status, data, gasUsed, error;
          }
          var stored := record.(storage := record.storage[op.key := op.value]);
          programs := programs.(live := programs.live[op.programId := stored]);
        case Close =>
          if op.programId !in programs.live {
            return Failed(ProgramNotFound), status, data, gasUsed, error;
          }
          if programs.live[op.programId].creator != owner {
            return Failed(ProgramUnauthorized), status, data, gasUsed, error;
          }
          programs := programs.(live := programs.live - {op.programId});
          programs := programs.(closed := programs.closed[op.programId := height]);
          status := "closed";
      }
      r := Done(true);
    }

    method CreditDevnet(a: Address, amount: u128) returns (r: Outcome)
      modifies this
      ensures Step(View(), r) == Adopt(old(View()), Ledger.CreditDevnet(old(View()), a, amount))
    {
      var account := AccountOf(View(), a);
      if account.balance + amount > U128_MAX {
        return Failed(BalanceOverflow);
      }
      native := native.(accounts := native.accounts[a := Account(account.balance + amount, account.nonce)]);
      r := Done(true);
    }
  }
}
