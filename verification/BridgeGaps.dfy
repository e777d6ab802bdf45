/** The two ways in which the bridge pays ether that backs something else. Both start from an empty system. */
module BridgeGaps {
  import opened Wrappers
  import opened Core
  import opened Ledger
  import opened Sums
  import opened Holdings
  import opened Escrow
  import opened Relayer
  import opened WrappedEther
  import opened BridgeSystem

  /** Delivered, accepted by the recipient, and acknowledged. */
  const SUCCESS := Answer(true, true, true)

  /** A burn the relayer can pay from this contract. */
  predicate Payable(o: AssetOperation) {
    && o.version == 1 && o.kind == BridgeBurn && o.amount > 0 && |o.operationId.hex| == 64
    && IsEthereumAddress(o.destination) && !IsZeroAddress(o.destination)
  }

  /** The relayer reads the burn from the chain's records, then pays it. */
  function Paid(env: Env, cfg: Config, b: System, o: AssetOperation, now: nat): System
    requires |o.operationId.hex| == 64 && o.kind == BridgeBurn
  {
    var read := Next(env, cfg, b, BurnsMove([o], now));
    BurnHasRow(b.world.rows, o, now);
    Next(env, cfg, read, AttemptMove(o.operationId, SUCCESS, now))
  }

  lemma BurnHasRow(rows: map<Hash, Row>, o: AssetOperation, now: nat)
    requires |o.operationId.hex| == 64 && o.kind == BridgeBurn
    ensures ReadBurns(rows, [o], now) == InsertOrIgnore(rows, o.operationId, BurnRow(o, now))
  {
    hide CanonicalKey;
    assert [o][1..] == [];
  }

  /** Whatever is recorded as a burn is paid: the records are all the relayer looks at. */
  lemma RecordedBurnIsPaid(env: Env, cfg: Config, b: System, o: AssetOperation, now: nat)
    requires Payable(o) && ReleasedInEther(CanonicalKey(o.assetId)) && o.amount <= b.world.escrow.balance
    requires o.operationId in b.chain.assets.records && b.chain.assets.records[o.operationId] == o
    requires o.operationId !in b.world.rows && o.operationId !in b.world.escrow.releases
    ensures var read, pay := BurnsMove([o], now), AttemptMove(o.operationId, SUCCESS, now);
            && Allowed(env, cfg, b, read) && Allowed(env, cfg, Next(env, cfg, b, read), pay)
            && var e, c := b.world.escrow, Paid(env, cfg, b, o, now);
               c.chain == b.chain && c.world.escrow
               == e.(balance := e.balance - o.amount, releases := e.releases + {o.operationId},
                       payments := e.payments + [Payment(o.operationId, o.destination, o.amount)])
  {
    hide CanonicalKey, ReadBurns, IsEthereumAddress, IsZeroAddress;
    BurnHasRow(b.world.rows, o, now);
  }

  /** From an empty system: one deposit, nothing else. */
  function WithDeposit(env: Env, cfg: Config, head: nat, chainId: string, accounts: map<Address, Account>, id: Hash,
      value: nat): System {
    Next(env, cfg, StartSystem(head, chainId, 0, accounts), UserDeposit(id, value, None))
  }

  lemma DepositAlone(env: Env, cfg: Config, head: nat, chainId: string, accounts: map<Address, Account>, id: Hash,
      value: nat)
    requires value > 0
    ensures var b := WithDeposit(env, cfg, head, chainId, accounts, id, value);
            && SystemOk(cfg, b) && Slack(cfg, b) == 0
            && b.world == World(map[], EscrowView(value, {id}, {}, [DepositEvent(id, value, None, head + 1)], []), {})
            && b.chain == GenesisState(chainId, 0, accounts)
  {
    var start := StartSystem(head, chainId, 0, accounts);
    StartIsOk(cfg, head, chainId, 0, accounts);
    DepositKeeps(env, cfg, start, id, value, None);
    TotalEmpty(start.chain.assets.balances, HoldingOf(cfg.weth));
    assert UnreleasedBurns(start.chain.assets.records, start.world.escrow.releases, cfg.weth) == map[];
  }

  lemma OnlyDeposit(id: Hash, value: nat, block: nat, processed: set<Hash>, other: Hash)
    requires id !in processed && id != other
    ensures PendingDeposits([DepositEvent(id, value, None, block)], processed) == value
    ensures DepositedUnder([DepositEvent(id, value, None, block)], other) == 0
  {
  }

  lemma WethGoesToEther(cfg: Config)
    requires GoodConfig(cfg)
    ensures ReleasedInEther(cfg.weth)
  {
    hide ParseAssetId;
    WethParts(cfg.weth);
    if WSOL_PREFIX <= cfg.weth {
      var id, rest := ParseAssetId(cfg.weth).value, cfg.weth[|WSOL_PREFIX|..];
      assert cfg.weth == WSOL_PREFIX + rest;
      assert cfg.weth == "solana" + ":" + "WSOL" + ":" + rest;
      KeyPartsUnique(id.namespace, "WETH", id.contract.value, "solana", "WSOL", rest);
    }
  }

  lemma WethAsset(cfg: Config, id: AssetId)
    requires GoodConfig(cfg) && ParseAssetId(cfg.weth) == Some(id)
    ensures CanonicalKey(id) == cfg.weth && id.contract.Some? && id.namespace != "worldstreet"
  {
    ParsePrintsBack(cfg.weth);
    hide FirstColon, ExternalDecimals;
  }

  /** A producer tries a burn of ether that its signer never had. The chain rejects it and keeps the record; the
      relayer reads the record and pays out somebody else's deposit. */
  lemma RejectedBurnIsPaid(env: Env, cfg: Config, head: nat, chainId: string, accounts: map<Address, Account>,
      deposit: Hash, o: AssetOperation, now: nat)
    requires GoodConfig(cfg) && Payable(o) && ParseAssetId(cfg.weth) == Some(o.assetId) && o.operationId != deposit
    ensures var b := WithDeposit(env, cfg, head, chainId, accounts, deposit, o.amount);
            var c := Next(env, cfg, b, ChainMove(Bridge(o)));
            var paid := Paid(env, cfg, c, o, now);
            && Apply(env, b.chain, Bridge(o)).outcome == Failed(InsufficientAssetBalance)
            && Slack(cfg, b) == 0 && Slack(cfg, c) == 0 - o.amount
            && paid.world.escrow.balance == 0
            && PendingDeposits(paid.world.escrow.events, paid.chain.assets.processed) == o.amount
  {
    hide Slack, SystemOk, ParseAssetId, CanonicalKey, WithDeposit, PendingDeposits, DepositedUnder, Apply, Paid,
         ReleasedInEther, IsEthereumAddress, IsZeroAddress, GoodConfig;
    var b := WithDeposit(env, cfg, head, chainId, accounts, deposit, o.amount);
    var c := Next(env, cfg, b, ChainMove(Bridge(o)));
    DepositAlone(env, cfg, head, chainId, accounts, deposit, o.amount);
    WethAsset(cfg, o.assetId);
    WethGoesToEther(cfg);
    BridgeOutcome(env, cfg, b.chain, o);
    ChainKeepsSlackExactly(env, cfg, b, Bridge(o));
    BookedRecords(env, b.chain, Bridge(o));
    OnlyDeposit(deposit, o.amount, head + 1, c.chain.assets.processed, o.operationId);
    RecordedBurnIsPaid(env, cfg, c, o, now);
  }

  lemma UsdcGoesToEther()
    ensures ReleasedInEther(CanonicalKey(USDC))
  {
    assert CanonicalKey(USDC)[0] == 'e' && WSOL_PREFIX[0] == 's';
  }

  /** Every operation is accepted, but the burn is of USDC: it is paid in ether out of somebody's deposit. */
  lemma UsdcBurnTakesEther(env: Env, cfg: Config, head: nat, chainId: string, accounts: map<Address, Account>,
      deposit: Hash, mint: AssetOperation, o: AssetOperation, now: nat)
    requires GoodConfig(cfg) && Payable(o) && o.assetId == USDC && o.operationId != deposit
    requires mint == o.(kind := BridgeMint, operationId := mint.operationId) && mint.operationId != deposit
    requires mint.operationId != o.operationId
    ensures var b := WithDeposit(env, cfg, head, chainId, accounts, deposit, o.amount);
            var c := Next(env, cfg, b, ChainMove(Bridge(mint)));
            var d := Next(env, cfg, c, ChainMove(Bridge(o)));
            var paid := Paid(env, cfg, d, o, now);
            && Apply(env, b.chain, Bridge(mint)).outcome == Done(true) && MintsAreRelayed(cfg, b.world, Bridge(mint))
            && Apply(env, c.chain, Bridge(o)).outcome == Done(true)
            && paid.world.escrow.balance == 0
            && PendingDeposits(paid.world.escrow.events, paid.chain.assets.processed) == o.amount
  {
    hide Slack, SystemOk, ParseAssetId, CanonicalKey, WithDeposit, PendingDeposits, DepositedUnder, Paid,
         ReleasedInEther, IsEthereumAddress, IsZeroAddress, IsWethText, IsSupportedUsdc;
    var b := WithDeposit(env, cfg, head, chainId, accounts, deposit, o.amount);
    DepositAlone(env, cfg, head, chainId, accounts, deposit, o.amount);
    UsdcGoesToEther();
    UsdcIsSupported();
    WethIsNotUsdc(cfg.weth, USDC);
    MintThenBurn(b.chain, mint, o);
    var d := Next(env, cfg, Next(env, cfg, b, ChainMove(Bridge(mint))), ChainMove(Bridge(o)));
    OnlyDeposit(deposit, o.amount, head + 1, d.chain.assets.processed, o.operationId);
    RecordedBurnIsPaid(env, cfg, d, o, now);
  }

  lemma MintThenBurn(s: Snapshot, mint: AssetOperation, o: AssetOperation)
    requires s.assets == AssetBook(map[], {}, map[]) && s.mna.reserve == EMPTY_RESERVE
    requires o.version == 1 && o.kind == BridgeBurn && o.amount > 0 && o.assetId == USDC && IsSupportedUsdc(USDC)
    requires mint == o.(kind := BridgeMint, operationId := mint.operationId) && mint.operationId != o.operationId
    ensures var minted := ApplyAssetOperation(s, mint);
            var burned := ApplyAssetOperation(minted.state, o);
            && minted.outcome == Done(true) && burned.outcome == Done(true)
            && burned.state.assets.processed == {mint.operationId, o.operationId}
            && burned.state.assets.records == map[mint.operationId := mint, o.operationId := o]
  {
    hide CanonicalKey, IsSupportedUsdc;
  }
}
