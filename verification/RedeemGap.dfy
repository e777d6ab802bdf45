/** A run of accepted operations, from a genesis of two units, on which the account of native units is off. */
module RedeemGap {
  import opened Wrappers
  import opened Core
  import opened Ledger
  import opened NativeAccounting

  /** All the USDC that one bridge mint and one purchase can carry. */
  const MOST_USDC: u128 := U128_MAX - 1
  const HALF: u128 := MOST_USDC / 2
  /** Together with `HALF` it is 2^128. */
  const WRAPPING_FEE: u128 := U128_MAX + 1 - HALF

  predicate SwapOf(env: Env, o: MnaSwapOperation, chainId: string, a: Address, kind: MnaSwapKind, nonce: u64,
      fee: u128) {
    var u := o.unsigned;
    && u.version == 1 && u.chainId == chainId && u.nonce == nonce && u.from == a && u.kind == kind
    && u.collateralAsset == USDC && u.amountUsdc == MOST_USDC && u.amountMna == HALF && u.fee == fee
    && env.addressOf(u.publicKey) == a && env.swapSigned(o)
  }

  predicate AccountHolds(s: Snapshot, a: Address, account: Account, usdc: u128) {
    && s.feeMinimum == 0 && a in s.native.accounts && s.native.accounts[a] == account
    && AssetBalance(s, a, CanonicalKey(USDC)) == usdc
  }

  lemma FirstMint(chainId: string, a: Address, o: AssetOperation)
    requires o.version == 1 && o.kind == BridgeMint && o.assetId == USDC && o.address == a && o.amount == MOST_USDC
    ensures var s := GenesisState(chainId, 0, map[a := Account(2, 0)]);
            var step := ApplyAssetOperation(s, o);
            && step.outcome == Done(true) && AccountHolds(step.state, a, Account(2, 0), MOST_USDC)
            && step.state == s.(assets := step.state.assets, mna := step.state.mna)
            && step.state.mna == s.mna.(reserve := EMPTY_RESERVE.(verifiedUsdc := MOST_USDC))
  {
    hide CanonicalKey, IsSupportedUsdc;
    UsdcIsSupported();
  }

  lemma ThenBuy(env: Env, s: Snapshot, a: Address, o: MnaSwapOperation)
    requires SwapOf(env, o, s.chainId, a, MintMna, 0, 0) && AccountHolds(s, a, Account(2, 0), MOST_USDC)
    requires s.mna.reserve == EMPTY_RESERVE.(verifiedUsdc := MOST_USDC) && s.mna.processedSwaps == {}
    ensures var step := ApplySwap(env, s, o);
            && step.outcome == Done(true) && AccountHolds(step.state, a, Account(2 + HALF, 1), 0)
            && step.state.chainId == s.chainId && step.state.mna.processedSwaps == {env.swapId(o.unsigned)}
            && step.state.mna.reserve == EMPTY_RESERVE.(verifiedUsdc := MOST_USDC, backedMna := HALF)
  {
    hide CanonicalKey, IsSupportedUsdc;
    UsdcIsSupported();
  }

  lemma ThenSell(env: Env, s: Snapshot, a: Address, o: MnaSwapOperation)
    requires SwapOf(env, o, s.chainId, a, RedeemMna, 1, WRAPPING_FEE) && AccountHolds(s, a, Account(2 + HALF, 1), 0)
    requires s.mna.reserve == EMPTY_RESERVE.(verifiedUsdc := MOST_USDC, backedMna := HALF)
    requires env.swapId(o.unsigned) !in s.mna.processedSwaps
    ensures var step := ApplySwap(env, s, o);
            step.outcome == Done(true) && AccountHolds(step.state, a, Account(2 + HALF, 2), MOST_USDC)
  {
    hide CanonicalKey, IsSupportedUsdc;
    UsdcIsSupported();
    assert WrappingAdd(HALF, WRAPPING_FEE) == 0;
  }

  /** From a genesis of two units: wrapped USDC is minted, all of it buys MNA, and the MNA is redeemed with a fee that
      makes the sum wrap to nothing. All three are applied; the redeemed MNA is still there, and the account is off. */
  lemma WrappedRedemption(env: Env, chainId: string, a: Address, mint: AssetOperation, buy: MnaSwapOperation,
      sell: MnaSwapOperation)
    requires mint.version == 1 && mint.kind == BridgeMint && mint.assetId == USDC && mint.address == a
    requires mint.amount == MOST_USDC && env.swapId(buy.unsigned) != env.swapId(sell.unsigned)
    requires SwapOf(env, buy, chainId, a, MintMna, 0, 0) && SwapOf(env, sell, chainId, a, RedeemMna, 1, WRAPPING_FEE)
    ensures var s := GenesisState(chainId, 0, map[a := Account(2, 0)]);
            var s1 := Apply(env, s, Bridge(mint)).state;
            var s2 := Apply(env, s1, Op.Swap(buy)).state;
            var s3 := Apply(env, s2, Op.Swap(sell)).state;
            && Run(env, s, [Bridge(mint), Op.Swap(buy), Op.Swap(sell)]) == Some(s3)
            && AccountOf(s3, a).balance == AccountOf(s2, a).balance == 2 + HALF
            && Outstanding(s2) == Outstanding(s) && Outstanding(s3) == Outstanding(s2) + U128_MAX + 1
  {
    hide CanonicalKey, ApplySwap, ApplyAssetOperation, SwapOf;
    var s := GenesisState(chainId, 0, map[a := Account(2, 0)]);
    var s1 := Apply(env, s, Bridge(mint)).state;
    var s2 := Apply(env, s1, Op.Swap(buy)).state;
    var s3 := Apply(env, s2, Op.Swap(sell)).state;
    FirstMint(chainId, a, mint);
    ThenBuy(env, s1, a, buy);
    ThenSell(env, s2, a, sell);
    SwapAccounting(env, s1, buy);
    SwapAccounting(env, s2, sell);
    KindAndFee(env, buy, chainId, a, MintMna, 0, 0);
    KindAndFee(env, sell, chainId, a, RedeemMna, 1, WRAPPING_FEE);
    assert Outstanding(s1) == Outstanding(s);
    hide Apply, Outstanding;
    var ops := [Bridge(mint), Op.Swap(buy), Op.Swap(sell)];
    assert ops[1..][1..] == ops[2..] && ops[2..][1..] == [];
    assert Run(env, s2, ops[2..]) == Some(s3) && Run(env, s1, ops[1..]) == Some(s3);
  }

  lemma KindAndFee(env: Env, o: MnaSwapOperation, chainId: string, a: Address, kind: MnaSwapKind, nonce: u64, fee: u128)
    requires SwapOf(env, o, chainId, a, kind, nonce, fee)
    ensures o.unsigned.kind == kind && o.unsigned.fee == fee && o.unsigned.amountMna == HALF
  {
  }
}
