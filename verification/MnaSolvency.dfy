/** Reserve-backed MNA and wrapped USDC never promise more than the reserve holds. */
module MnaSolvency {
  import opened Wrappers
  import opened Core
  import opened Ledger
  import opened Sums
  import opened Frames
  import Nonces
  import Replay

  const ETHEREUM_USDC := "ethereum:USDC:"
  const SOLANA_USDC := "solana:USDC:"

  /** The keys under which supported USDC is held. */
  predicate IsUsdcKey(key: string) {
    || (ETHEREUM_USDC <= key && IsSepoliaUsdc(key[|ETHEREUM_USDC|..]))
    || (SOLANA_USDC <= key && IsDevnetUsdc(key[|SOLANA_USDC|..]))
  }

  ghost function UsdcPart(assets: map<string, u128>): map<string, nat> {
    map key | key in assets && IsUsdcKey(key) :: assets[key]
  }

  ghost const UsdcIn: map<string, u128> -> nat := (assets: map<string, u128>) => Sum(UsdcPart(assets))

  /** All wrapped USDC on the chain. */
  ghost function WrappedUsdc(balances: map<Address, map<string, u128>>): nat {
    Total(balances, UsdcIn)
  }

  /** Net verified USDC plus net verified SOL value, as integers. */
  ghost function NetReserve(l: ReserveLedger): int {
    l.verifiedUsdc - l.releasedUsdc + l.verifiedSolUsd - l.releasedSolUsd
  }

  /** What the reserve holds beyond all wrapped USDC and two USDC for every backed MNA. */
  ghost function Margin(s: Snapshot): int {
    NetReserve(s.mna.reserve) - WrappedUsdc(s.assets.balances) - 2 * s.mna.reserve.backedMna
  }

  ghost predicate Solvent(s: Snapshot) {
    WrappedUsdc(s.assets.balances) + 2 * s.mna.reserve.backedMna <= NetReserve(s.mna.reserve)
  }

  /** An identity that sits under a USDC key and is not recognised as USDC: the contract in another spelling than the
      ledger accepts it, or other decimals. The bridge interface reads no such identity. */
  predicate Mislabelled(id: AssetId) {
    IsUsdcKey(CanonicalKey(id)) && !IsSupportedUsdc(id)
  }

  predicate IsRelease(op: Op) {
    op.Reserve? && op.reserve.kind == Release
  }

  /** What an operation takes from the margin when it is applied. */
  function Draw(op: Op): nat {
    if IsRelease(op) then op.reserve.amountUsdc
    else if op.Bridge? && op.asset.kind == BridgeMint && Mislabelled(op.asset.assetId) then op.asset.amount
    else 0
  }

  /* ---------- which keys hold USDC ---------- */

  lemma SupportedUsdcKey(id: AssetId)
    requires IsSupportedUsdc(id)
    ensures IsUsdcKey(CanonicalKey(id))
  {
    hide IsSepoliaUsdc, IsDevnetUsdc;
    var reference := id.contract.value;
    var prefix := if id.namespace == "ethereum" then ETHEREUM_USDC else SOLANA_USDC;
    assert CanonicalKey(id) == prefix + reference;
    assert (prefix + reference)[|prefix|..] == reference;
  }

  lemma UsdcParts(namespace: string, reference: string, id: AssetId)
    requires ColonFree(namespace) && ParseAssetId(namespace + ":" + "USDC" + ":" + reference) == Some(id)
    ensures id == AssetId(namespace, "USDC", Some(reference), 6)
  {
    ParsePrintsBack(namespace + ":" + "USDC" + ":" + reference);
    KeyPartsUnique(id.namespace, id.symbol, id.contract.value, namespace, "USDC", reference);
    assert AsciiUpper(id.symbol) == "USDC";
  }

  lemma EthereumParts(text: string, id: AssetId)
    requires ParseAssetId(text) == Some(id) && ETHEREUM_USDC <= text
    ensures id == AssetId("ethereum", "USDC", Some(text[|ETHEREUM_USDC|..]), 6)
  {
    hide ParseAssetId;
    assert text == ETHEREUM_USDC + text[|ETHEREUM_USDC|..];
    assert text == "ethereum" + ":" + "USDC" + ":" + text[|ETHEREUM_USDC|..];
    UsdcParts("ethereum", text[|ETHEREUM_USDC|..], id);
  }

  lemma SolanaParts(text: string, id: AssetId)
    requires ParseAssetId(text) == Some(id) && SOLANA_USDC <= text
    ensures id == AssetId("solana", "USDC", Some(text[|SOLANA_USDC|..]), 6)
  {
    hide ParseAssetId;
    assert text == SOLANA_USDC + text[|SOLANA_USDC|..];
    assert text == "solana" + ":" + "USDC" + ":" + text[|SOLANA_USDC|..];
    UsdcParts("solana", text[|SOLANA_USDC|..], id);
  }

  /** For an identity the parser can return, only supported USDC is held under a USDC key. */
  lemma UsdcKeySupported(id: AssetId)
    requires Parsed(id) && IsUsdcKey(CanonicalKey(id))
    ensures IsSupportedUsdc(id)
  {
    hide IsSepoliaUsdc, IsDevnetUsdc, ParseAssetId;
    var text :| ParseAssetId(text) == Some(id);
    assert CanonicalKey(id) == text by { ParsePrintsBack(text); }
    if ETHEREUM_USDC <= text && IsSepoliaUsdc(text[|ETHEREUM_USDC|..]) {
      EthereumParts(text, id);
    } else {
      SolanaParts(text, id);
    }
  }

  lemma ParsedIsLabelled(id: AssetId)
    requires Parsed(id)
    ensures !Mislabelled(id)
  {
    hide IsUsdcKey, IsSupportedUsdc, CanonicalKey, Parsed;
    if Mislabelled(id) {
      UsdcKeySupported(id);
    }
  }

  lemma TokenKeyIsNotUsdc(d: TokenDefinition)
    ensures !IsUsdcKey(TokenKey(d))
  {
    assert TokenKey(d)[0] == 'i';
    assert ETHEREUM_USDC[0] == 'e' && SOLANA_USDC[0] == 's';
  }

  /* ---------- one balance at a time ---------- */

  lemma UsdcPartMoves(assets: map<string, u128>, key: string, amount: u128)
    ensures UsdcIn(assets[key := amount])
            == UsdcIn(assets) + (if IsUsdcKey(key) then amount - Holding(assets, key) else 0)
    ensures IsUsdcKey(key) ==> Holding(assets, key) <= UsdcIn(assets)
  {
    if IsUsdcKey(key) {
      SumSet(UsdcPart(assets), key, amount);
      assert UsdcPart(assets[key := amount]) == UsdcPart(assets)[key := amount];
    } else {
      assert UsdcPart(assets[key := amount]) == UsdcPart(assets);
    }
  }

  lemma WrappedUsdcMoves(s: Snapshot, a: Address, key: string, amount: u128)
    ensures WrappedUsdc(SetHolding(s, a, key, amount).assets.balances)
            == WrappedUsdc(s.assets.balances) + (if IsUsdcKey(key) then amount - AssetBalance(s, a, key) else 0)
    ensures IsUsdcKey(key) ==> AssetBalance(s, a, key) <= WrappedUsdc(s.assets.balances)
  {
    EmptyHoldsNoUsdc();
    UsdcPartMoves(AssetsOf(s, a), key, amount);
    TotalSet(s.assets.balances, UsdcIn, a, AssetsOf(s, a)[key := amount]);
  }

  lemma EmptyHoldsNoUsdc()
    ensures UsdcIn(map[]) == 0
  {
    assert UsdcPart(map[]) == map[];
  }

  lemma EntryHoldsNoUsdc(s: Snapshot, a: Address)
    ensures WrappedUsdc(s.assets.balances[a := AssetsOf(s, a)]) == WrappedUsdc(s.assets.balances)
  {
    EmptyHoldsNoUsdc();
    TotalSet(s.assets.balances, UsdcIn, a, AssetsOf(s, a));
  }

  /* ---------- each operation family ---------- */

  /** Bridge mints and burns leave the margin alone, although burns check no collateral, if and only if the identity
      is not mislabelled. */
  lemma BridgeMargin(s: Snapshot, op: AssetOperation)
    requires ApplyAssetOperation(s, op).outcome == Done(true)
    ensures Margin(ApplyAssetOperation(s, op).state)
            == Margin(s) + (if !Mislabelled(op.assetId) then 0 else if op.kind == BridgeMint then 0 - op.amount
                            else op.amount)
    ensures Margin(ApplyAssetOperation(s, op).state) == Margin(s) <==> !Mislabelled(op.assetId)
  {
    hide IsSupportedUsdc, IsUsdcKey, CanonicalKey, WrappedUsdc;
    var step, key := ApplyAssetOperation(s, op), CanonicalKey(op.assetId);
    if IsSupportedUsdc(op.assetId) {
      SupportedUsdcKey(op.assetId);
    }
    EntryHoldsNoUsdc(s, op.address);
    var entered := s.(assets := s.assets.(balances := s.assets.balances[op.address := AssetsOf(s, op.address)]));
    WrappedUsdcMoves(entered, op.address, key, AssetBalance(step.state, op.address, key));
    assert step.state.assets.balances
           == SetHolding(entered, op.address, key, AssetBalance(step.state, op.address, key)).assets.balances;
  }

  /** What a rejected bridge operation leaves in the state of the producer that tried it: the reserve counters of
      supported USDC are already moved, so a burn that is not held takes its amount from the margin. */
  lemma RejectedBridgeMargin(s: Snapshot, op: AssetOperation)
    requires ApplyAssetOperation(s, op).outcome.Failed?
    ensures Margin(ApplyAssetOperation(s, op).state)
            == Margin(s) + (if !Replay.BridgeChecked(s, op) || !IsSupportedUsdc(op.assetId)
                               || BridgedReserve(s.mna.reserve, op).Err? then 0
                            else if op.kind == BridgeMint then op.amount else 0 - op.amount)
  {
    hide IsSupportedUsdc, CanonicalKey, WrappedUsdc;
    EntryHoldsNoUsdc(s, op.address);
  }

  lemma MintMargin(s: Snapshot, op: MnaSwapOperation, id: Hash)
    requires IsSupportedUsdc(op.unsigned.collateralAsset) && op.unsigned.amountUsdc == 2 * op.unsigned.amountMna
    ensures MintEffect(s, op, id).Ok? ==> Margin(MintEffect(s, op, id).value) == Margin(s)
    ensures Solvent(s) ==> MintEffect(s, op, id) != Err(MnaReserveInsufficient)
  {
    hide IsSupportedUsdc, IsUsdcKey, CanonicalKey, WrappedUsdc;
    var u := op.unsigned;
    var key := CanonicalKey(u.collateralAsset);
    var current := AssetBalance(s, u.from, key);
    SupportedUsdcKey(u.collateralAsset);
    if u.amountUsdc <= current {
      WrappedUsdcMoves(s, u.from, key, current - u.amountUsdc);
      if Solvent(s) && s.mna.reserve.backedMna + u.amountMna <= U128_MAX {
        assert 2 * (s.mna.reserve.backedMna + u.amountMna) <= NetReserve(s.mna.reserve);
        assert SaturatingDouble(s.mna.reserve.backedMna + u.amountMna) <= CurrentReserveUsd(s.mna.reserve);
      }
    }
  }

  lemma RedeemMargin(s: Snapshot, op: MnaSwapOperation, id: Hash)
    requires IsSupportedUsdc(op.unsigned.collateralAsset) && op.unsigned.amountUsdc == 2 * op.unsigned.amountMna
    ensures RedeemEffect(s, op, id).Ok? ==> Margin(RedeemEffect(s, op, id).value) == Margin(s)
  {
    hide IsSupportedUsdc, IsUsdcKey, CanonicalKey, WrappedUsdc;
    var u := op.unsigned;
    var key := CanonicalKey(u.collateralAsset);
    SupportedUsdcKey(u.collateralAsset);
    if RedeemEffect(s, op, id).Ok? {
      WrappedUsdcMoves(s, u.from, key, AssetBalance(s, u.from, key) + u.amountUsdc);
    }
  }

  /** A swap never moves the margin, and in a solvent state no mint is refused for lack of reserve. */
  lemma SwapMargin(env: Env, s: Snapshot, op: MnaSwapOperation)
    ensures var step := ApplySwap(env, s, op);
            && (step.outcome.Done? ==> Margin(step.state) == Margin(s))
            && (Solvent(s) && op.unsigned.kind == MintMna ==> step.outcome != Failed(MnaReserveInsufficient))
  {
    var id := env.swapId(op.unsigned);
    if ValidateSwap(env, s, op).Ok? {
      var marked := s.(mna := s.mna.(processedSwaps := s.mna.processedSwaps + {id}));
      assert Margin(marked) == Margin(s);
      MintMargin(marked, op, id);
      RedeemMargin(marked, op, id);
    }
  }

  /** The wrapping sum in the conversion check is the true sum: fee and amount cannot wrap past it. */
  lemma ConversionIsExact(op: MnaReserveOperation)
    requires ExactConversion(op)
    ensures 2 * (op.amountMna + op.feeMna) == op.amountUsdc
  {
    var half := op.amountUsdc / MNA_USDC_DENOMINATOR;
    assert op.amountMna + op.feeMna > U128_MAX ==>
           WrappingAdd(op.amountMna, op.feeMna) == op.amountMna + op.feeMna - (U128_MAX + 1);
  }

  /** A deposit widens the margin by what it brings and does not issue; a release narrows it by its amount. */
  lemma ReserveMargin(env: Env, s: Snapshot, op: MnaReserveOperation)
    ensures var step := ApplyReserve(env, s, op);
            step.outcome == Done(true) ==>
              Margin(step.state) == Margin(s)
                + (if op.kind == Release then 0 - op.amountUsdc
                   else if IsSupportedSol(op.collateralAsset) then 2 * op.feeMna
                   else op.amountUsdc)
  {
    var id := env.reserveId(op);
    if ApplyReserve(env, s, op).outcome == Done(true) {
      ConversionIsExact(op);
      var marked := s.(mna := s.mna.(processedReserves := s.mna.processedReserves + {id}));
      assert DepositEffect(marked, op).Ok? ==> DepositEffect(marked, op).value.assets == s.assets;
      assert ReleaseEffect(marked, op).Ok? ==> ReleaseEffect(marked, op).value.assets == s.assets;
      ReserveWrites(env, s, op);
    }
  }

  /** The exact condition for a release: it keeps the chain solvent when its amount is within the margin. */
  lemma ReleaseKeepsSolvencyExactly(env: Env, s: Snapshot, op: MnaReserveOperation)
    requires op.kind == Release && ApplyReserve(env, s, op).outcome == Done(true)
    ensures Solvent(ApplyReserve(env, s, op).state) <==> op.amountUsdc <= Margin(s)
  {
    ReserveMargin(env, s, op);
  }

  lemma AdjustKeepsUsdc(s: Snapshot, d: TokenDefinition, a: Address, amount: u128, add: bool)
    ensures var r := AdjustTokenBalance(s, d, a, amount, add); r.Ok? ==>
            WrappedUsdc(r.value.assets.balances) == WrappedUsdc(s.assets.balances)
  {
    hide IsUsdcKey, CanonicalKey, WrappedUsdc;
    var r := AdjustTokenBalance(s, d, a, amount, add);
    if r.Ok? {
      TokenKeyIsNotUsdc(d);
      WrappedUsdcMoves(s, a, TokenKey(d), AssetBalance(r.value, a, TokenKey(d)));
    }
  }

  lemma TokenActionKeepsUsdc(env: Env, s: Snapshot, u: UnsignedTokenOperation, id: Hash)
    ensures var r := TokenAction(env, s, u, id); r.Ok? ==>
            WrappedUsdc(r.value.assets.balances) == WrappedUsdc(s.assets.balances)
  {
    hide CanonicalKey, WrappedUsdc;
    var r := TokenAction(env, s, u, id);
    if r.Ok? {
      if u.kind == Create {
        var d := NewToken(u, env.tokenIdOf(id));
        AdjustKeepsUsdc(SetToken(s, env.tokenIdOf(id), d), d, u.from, u.amount, true);
      } else {
        var d := s.tokens.definitions[u.tokenId];
        AdjustKeepsUsdc(s, d, u.from, u.amount, false);
        if u.kind == TokenTransfer {
          AdjustKeepsUsdc(AdjustTokenBalance(s, d, u.from, u.amount, false).value, d, u.to.value, u.amount, true);
        } else if u.kind == TokenMint {
          AdjustKeepsUsdc(s, d.(totalSupply := d.totalSupply + u.amount), u.to.value, u.amount, true);
        }
      }
    }
  }

  lemma TokenMargin(env: Env, s: Snapshot, op: TokenOperation, id: Hash)
    ensures var step := ApplyToken(env, s, op, id); Margin(step.state) == Margin(s)
  {
    hide TokenAction, ValidateToken, WrappedUsdc;
    var paid := ChargeTokenFee(s, op.unsigned);
    if paid.Ok? {
      TokenActionKeepsUsdc(env, paid.value, op.unsigned, id);
      TokenActionWrites(env, paid.value, op.unsigned, id);
    }
  }

  /* ---------- runs ---------- */

  /** An applied operation takes exactly its draw from the margin; without a draw the margin does not shrink. */
  lemma StepMargin(env: Env, s: Snapshot, op: Op)
    requires Apply(env, s, op).outcome == Done(true)
    ensures var s' := Apply(env, s, op).state;
            && (Draw(op) == 0 ==> Margin(s) <= Margin(s'))
            && (Draw(op) > 0 ==> Margin(s') == Margin(s) - Draw(op))
  {
    hide Mislabelled, WrappedUsdc;
    match op
    case Transfer(tx) => TransferWrites(env, s, tx);
    case Bridge(o) => BridgeMargin(s, o);
    case Token(o) => TokenMargin(env, s, o, env.tokenOpId(o.unsigned));
    case Swap(o) => SwapMargin(env, s, o);
    case Reserve(o) => ReserveMargin(env, s, o);
    case Program(o, height) => ProgramWrites(env, s, o, height);
    case Credit(a, amount) =>
  }

  /** Solvent at every point of an accepted run. */
  ghost predicate SolventThroughout(env: Env, s: Snapshot, ops: seq<Op>)
    decreases |ops|
  {
    && Solvent(s)
    && (ops != [] && Apply(env, s, ops[0]).outcome.Done? ==>
          SolventThroughout(env, Apply(env, s, ops[0]).state, ops[1..]))
  }

  /** What each operation of the run draws is within the margin at its turn. */
  ghost predicate DrawsCovered(env: Env, s: Snapshot, ops: seq<Op>)
    decreases |ops|
  {
    ops != [] && Apply(env, s, ops[0]).outcome.Done? ==>
      && (Apply(env, s, ops[0]).outcome == Done(true) ==> Draw(ops[0]) <= Margin(s))
      && DrawsCovered(env, Apply(env, s, ops[0]).state, ops[1..])
  }

  /** A run stays solvent throughout if and only if every release, and every mint of a mislabelled identity, is within
      the margin at its turn. Mints of MNA along it are never refused for lack of reserve. */
  lemma {:induction false} RunsStaySolvent(env: Env, s: Snapshot, ops: seq<Op>)
    requires Solvent(s)
    ensures SolventThroughout(env, s, ops) <==> DrawsCovered(env, s, ops)
    decreases |ops|
  {
    hide Apply, Margin, Draw, Solvent;
    if ops != [] && Apply(env, s, ops[0]).outcome.Done? {
      var s' := Apply(env, s, ops[0]).state;
      SolventMeans(s);
      SolventMeans(s');
      if Apply(env, s, ops[0]).outcome == Done(true) {
        StepMargin(env, s, ops[0]);
      } else {
        Nonces.DuplicateChangesNothing(env, s, ops[0]);
      }
      if Solvent(s') {
        RunsStaySolvent(env, s', ops[1..]);
      }
    }
  }

  lemma SolventMeans(s: Snapshot)
    ensures Solvent(s) <==> Margin(s) >= 0
  {
  }

  /** Each release of the run is within the margin at its turn. */
  ghost predicate ReleasesCovered(env: Env, s: Snapshot, ops: seq<Op>)
    decreases |ops|
  {
    ops != [] && Apply(env, s, ops[0]).outcome.Done? ==>
      && (Apply(env, s, ops[0]).outcome == Done(true) && IsRelease(ops[0]) ==>
            ops[0].reserve.amountUsdc <= Margin(s))
      && ReleasesCovered(env, Apply(env, s, ops[0]).state, ops[1..])
  }

  lemma ParsedDraws(op: Op)
    requires op.Bridge? ==> Parsed(op.asset.assetId)
    ensures Draw(op) == if IsRelease(op) then op.reserve.amountUsdc else 0
  {
    hide Mislabelled, Parsed;
    if op.Bridge? {
      ParsedIsLabelled(op.asset.assetId);
    }
  }

  /** Where bridge operations come through the interface, only releases draw: such a run stays solvent throughout if and
      only if every release is within the margin at its turn, and always if it has none. */
  lemma {:induction false} ParsedRunsStaySolvent(env: Env, s: Snapshot, ops: seq<Op>)
    requires Solvent(s) && forall op | op in ops && op.Bridge? :: Parsed(op.asset.assetId)
    ensures SolventThroughout(env, s, ops) <==> ReleasesCovered(env, s, ops)
    ensures (forall op | op in ops :: !IsRelease(op)) ==> SolventThroughout(env, s, ops)
  {
    hide Solvent, SolventThroughout;
    RunsStaySolvent(env, s, ops);
    DrawsOfReleases(env, s, ops);
  }

  lemma {:induction false} DrawsOfReleases(env: Env, s: Snapshot, ops: seq<Op>)
    requires Solvent(s) && forall op | op in ops && op.Bridge? :: Parsed(op.asset.assetId)
    ensures DrawsCovered(env, s, ops) <==> ReleasesCovered(env, s, ops)
    ensures (forall op | op in ops :: !IsRelease(op)) ==> ReleasesCovered(env, s, ops)
    decreases |ops|
  {
    hide Apply, Margin, Draw, Solvent, Parsed;
    if ops != [] && Apply(env, s, ops[0]).outcome.Done? {
      var s' := Apply(env, s, ops[0]).state;
      SolventMeans(s);
      SolventMeans(s');
      ParsedDraws(ops[0]);
      if Apply(env, s, ops[0]).outcome == Done(true) {
        StepMargin(env, s, ops[0]);
      } else {
        Nonces.DuplicateChangesNothing(env, s, ops[0]);
      }
      if Solvent(s') {
        DrawsOfReleases(env, s', ops[1..]);
      }
    }
  }

  lemma {:induction false} SolventAtTheEnd(env: Env, s: Snapshot, ops: seq<Op>)
    requires SolventThroughout(env, s, ops)
    ensures Run(env, s, ops).Some? ==> Solvent(Run(env, s, ops).value)
    decreases |ops|
  {
    hide Apply, Solvent;
    if ops != [] && Apply(env, s, ops[0]).outcome.Done? {
      SolventAtTheEnd(env, Apply(env, s, ops[0]).state, ops[1..]);
    }
  }

  lemma GenesisIsSolvent(chainId: string, feeMinimum: u128, accounts: map<Address, Account>)
    ensures Solvent(GenesisState(chainId, feeMinimum, accounts))
            && Margin(GenesisState(chainId, feeMinimum, accounts)) == 0
  {
    TotalEmpty(GenesisState(chainId, feeMinimum, accounts).assets.balances, UsdcIn);
  }

  /** From genesis: wrapped USDC is minted, then the reserve releases the same amount. Both are applied, and the
      wrapped USDC is backed by nothing. */
  lemma ReleaseAfterMint(env: Env, chainId: string, feeMinimum: u128, accounts: map<Address, Account>,
      mint: AssetOperation, o: MnaReserveOperation)
    requires mint.version == 1 && mint.kind == BridgeMint && mint.amount == 10 && mint.assetId == o.collateralAsset
    requires o.collateralAsset == USDC
    requires o.version == 1 && o.kind == Release && o.amountUsdc == 10 && o.amountMna == 5 && o.feeMna == 0
    requires o.collateralAmount == 0 && o.oraclePrice == 0 && o.oracleTimestamp == 0 && o.externalTransaction == "0x1"
    requires env.reserveId(o) == o.operationId
    ensures var minted := ApplyAssetOperation(GenesisState(chainId, feeMinimum, accounts), mint);
            var released := ApplyReserve(env, minted.state, o);
            && minted.outcome == Done(true) && Solvent(minted.state)
            && released.outcome == Done(true) && Margin(released.state) == 0 - 10 && !Solvent(released.state)
  {
    hide IsSupportedUsdc, WrappedUsdc, CanonicalKey, IsUsdcKey;
    var s := GenesisState(chainId, feeMinimum, accounts);
    assert !IsSpace(o.externalTransaction[0]);
    GenesisIsSolvent(chainId, feeMinimum, accounts);
    UsdcIsSupported();
    BridgeMargin(s, mint);
    ReserveMargin(env, ApplyAssetOperation(s, mint).state, o);
  }

  /** The Sepolia contract with the wrong decimals sits under the key of USDC and is not recognised: from genesis its
      mint is applied, adds no reserve, and leaves the chain insolvent. */
  lemma MislabelledMintIsUnbacked(chainId: string, feeMinimum: u128, accounts: map<Address, Account>, o: AssetOperation)
    requires o.version == 1 && o.kind == BridgeMint && o.amount > 0 && o.assetId == USDC.(decimals := 18)
    ensures var step := ApplyAssetOperation(GenesisState(chainId, feeMinimum, accounts), o);
            && Mislabelled(o.assetId) && CanonicalKey(o.assetId) == CanonicalKey(USDC)
            && step.outcome == Done(true) && Margin(step.state) == 0 - o.amount && !Solvent(step.state)
  {
    hide IsSepoliaUsdc, IsDevnetUsdc, WrappedUsdc, IsUsdcKey;
    var s := GenesisState(chainId, feeMinimum, accounts);
    UsdcIsSupported();
    SupportedUsdcKey(USDC);
    GenesisIsSolvent(chainId, feeMinimum, accounts);
    assert !IsSupportedUsdc(o.assetId) && CanonicalKey(o.assetId) == CanonicalKey(USDC);
    hide CanonicalKey, IsSupportedUsdc;
    BridgeMargin(s, o);
  }

  /** From genesis: a producer tries a burn of USDC that nobody holds. It is rejected, and the released counter stays
      up. */
  lemma RejectedBurnTakesMargin(chainId: string, feeMinimum: u128, accounts: map<Address, Account>, o: AssetOperation)
    requires o.version == 1 && o.kind == BridgeBurn && o.amount > 0 && o.assetId == USDC
    ensures var step := ApplyAssetOperation(GenesisState(chainId, feeMinimum, accounts), o);
            && step.outcome == Failed(InsufficientAssetBalance)
            && Margin(step.state) == 0 - o.amount && !Solvent(step.state)
  {
    hide IsSupportedUsdc, WrappedUsdc, CanonicalKey;
    var s := GenesisState(chainId, feeMinimum, accounts);
    UsdcIsSupported();
    GenesisIsSolvent(chainId, feeMinimum, accounts);
    RejectedBridgeMargin(s, o);
  }
}
