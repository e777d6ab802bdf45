/** Wrapped ether on the chain: which operations can move its total. */
module WrappedEther {
  import opened Core
  import opened Ledger
  import opened Frames
  import opened Holdings
  import opened TokenLedger

  /** The configured asset is some chain's WETH, outside the namespace of custom tokens. */
  predicate IsWethText(weth: string) {
    var id := ParseAssetId(weth);
    id.Some? && id.value.symbol == "WETH" && id.value.namespace != "intertrain"
  }

  ghost function WethTotal(s: Snapshot, weth: string): nat {
    KeyTotal(s.assets.balances, weth)
  }

  /** What an operation adds to or takes from the wrapped total. */
  function WethChange(weth: string, op: Op, outcome: Outcome): int {
    if op.Bridge? && outcome == Done(true) && CanonicalKey(op.asset.assetId) == weth then
      if op.asset.kind == BridgeMint then op.asset.amount else 0 - op.asset.amount
    else 0
  }

  lemma WethParts(weth: string)
    requires IsWethText(weth)
    ensures var id := ParseAssetId(weth).value;
            weth == id.namespace + ":" + "WETH" + ":" + id.contract.value && CanonicalKey(id) == weth
            && id.contract.Some? && ColonFree(id.namespace) && id.namespace != "intertrain"
  {
    ParsePrintsBack(weth);
  }

  lemma WethIsNotUsdc(weth: string, id: AssetId)
    requires IsWethText(weth) && IsSupportedUsdc(id)
    ensures CanonicalKey(id) != weth
  {
    hide IsSepoliaUsdc, IsDevnetUsdc, ParseAssetId;
    WethParts(weth);
    var w := ParseAssetId(weth).value;
    if CanonicalKey(id) == weth {
      assert CanonicalKey(id) == id.namespace + ":" + "USDC" + ":" + id.contract.value;
      KeyPartsUnique(id.namespace, "USDC", id.contract.value, w.namespace, "WETH", w.contract.value);
    }
  }

  lemma WethIsNotToken(weth: string, d: TokenDefinition)
    requires IsWethText(weth)
    ensures TokenKey(d) != weth
  {
    hide ParseAssetId;
    WethParts(weth);
    TokenKeyOf(d);
    ForeignKeyDiffers(ParseAssetId(weth).value, d.tokenId, d.symbol);
  }

  lemma AdjustKeepsWeth(s: Snapshot, d: TokenDefinition, a: Address, amount: u128, add: bool, weth: string)
    requires IsWethText(weth)
    ensures var r := AdjustTokenBalance(s, d, a, amount, add); r.Ok? ==> WethTotal(r.value, weth) == WethTotal(s, weth)
  {
    hide IsWethText, TokenKey, KeyTotal;
    var r := AdjustTokenBalance(s, d, a, amount, add);
    if r.Ok? {
      WethIsNotToken(weth, d);
      HoldingMoves(s, a, TokenKey(d), AssetBalance(r.value, a, TokenKey(d)), weth);
    }
  }

  lemma TokenActionKeepsWeth(env: Env, s: Snapshot, u: UnsignedTokenOperation, id: Hash, weth: string)
    requires IsWethText(weth)
    ensures var r := TokenAction(env, s, u, id); r.Ok? ==> WethTotal(r.value, weth) == WethTotal(s, weth)
  {
    hide IsWethText, TokenKey, KeyTotal;
    var r := TokenAction(env, s, u, id);
    if r.Ok? {
      if u.kind == Create {
        var d := NewToken(u, env.tokenIdOf(id));
        AdjustKeepsWeth(SetToken(s, env.tokenIdOf(id), d), d, u.from, u.amount, true, weth);
      } else {
        var d := s.tokens.definitions[u.tokenId];
        AdjustKeepsWeth(s, d, u.from, u.amount, false, weth);
        if u.kind == TokenTransfer {
          AdjustKeepsWeth(AdjustTokenBalance(s, d, u.from, u.amount, false).value, d, u.to.value, u.amount, true, weth);
        } else if u.kind == TokenMint {
          AdjustKeepsWeth(s, d.(totalSupply := d.totalSupply + u.amount), u.to.value, u.amount, true, weth);
        }
      }
    }
  }

  lemma TokenKeepsWeth(env: Env, s: Snapshot, o: TokenOperation, id: Hash, weth: string)
    requires IsWethText(weth)
    ensures WethTotal(ApplyToken(env, s, o, id).state, weth) == WethTotal(s, weth)
  {
    hide KeyTotal, TokenAction, ValidateToken;
    var paid := ChargeTokenFee(s, o.unsigned);
    if paid.Ok? {
      TokenActionKeepsWeth(env, paid.value, o.unsigned, id, weth);
    }
  }

  lemma SwapKeepsWeth(env: Env, s: Snapshot, o: MnaSwapOperation, weth: string)
    requires IsWethText(weth)
    ensures WethTotal(ApplySwap(env, s, o).state, weth) == WethTotal(s, weth)
  {
    hide KeyTotal, IsWethText, CanonicalKey, IsSupportedUsdc;
    var u, s' := o.unsigned, ApplySwap(env, s, o).state;
    if ValidateSwap(env, s, o).Ok? {
      WethIsNotUsdc(weth, u.collateralAsset);
      HoldingMoves(s, u.from, CanonicalKey(u.collateralAsset),
        AssetBalance(s', u.from, CanonicalKey(u.collateralAsset)), weth);
    }
  }

  lemma BridgeMovesWeth(s: Snapshot, o: AssetOperation, weth: string)
    ensures var step := ApplyAssetOperation(s, o);
            WethTotal(step.state, weth) == WethTotal(s, weth) + WethChange(weth, Bridge(o), step.outcome)
  {
    hide KeyTotal, CanonicalKey, IsSupportedUsdc;
    var step, key := ApplyAssetOperation(s, o), CanonicalKey(o.assetId);
    EntryHoldsNothing(s, o.address, weth);
    if step.outcome == Done(true) {
      var entered := s.(assets := s.assets.(balances := s.assets.balances[o.address := AssetsOf(s, o.address)]));
      HoldingMoves(entered, o.address, key, AssetBalance(step.state, o.address, key), weth);
      assert step.state.assets.balances
             == SetHolding(entered, o.address, key, AssetBalance(step.state, o.address, key)).assets.balances;
    }
  }

  /** Whatever the outcome, only accepted bridge mints and burns of WETH itself move the wrapped total. */
  lemma StepMovesWeth(env: Env, s: Snapshot, op: Op, weth: string)
    requires IsWethText(weth)
    ensures var step := Apply(env, s, op);
            WethTotal(step.state, weth) == WethTotal(s, weth) + WethChange(weth, op, step.outcome)
  {
    hide KeyTotal, IsWethText, CanonicalKey;
    match op
    case Transfer(tx) => TransferWrites(env, s, tx);
    case Bridge(o) => BridgeMovesWeth(s, o, weth);
    case Token(o) => TokenKeepsWeth(env, s, o, env.tokenOpId(o.unsigned), weth);
    case Swap(o) => SwapKeepsWeth(env, s, o, weth);
    case Reserve(o) => ReserveWrites(env, s, o);
    case Program(o, height) => ProgramWrites(env, s, o, height);
    case Credit(a, amount) =>
  }
}
