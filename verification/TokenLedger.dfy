/** Custom tokens: what is held adds up to the recorded supply, and holds on accounts and tokens really hold. */
module TokenLedger {
  import opened Wrappers
  import opened Core
  import opened Ledger
  import opened Frames
  import opened Holdings
  import opened Sums

  function CustomKey(id: Hash, symbol: string): string {
    CanonicalKey(CustomAsset(id, symbol, 0))
  }

  /** All holdings of one token. */
  ghost function Held(s: Snapshot, id: Hash, symbol: string): nat {
    KeyTotal(s.assets.balances, CustomKey(id, symbol))
  }

  function RecordedSupply(s: Snapshot, id: Hash, symbol: string): nat {
    if id in s.tokens.definitions && s.tokens.definitions[id].symbol == symbol
    then s.tokens.definitions[id].totalSupply else 0
  }

  predicate GoodDefinition(id: Hash, d: TokenDefinition) {
    d.tokenId == id && ColonFree(d.symbol) && (d.maxSupply.Some? ==> d.totalSupply <= d.maxSupply.value)
  }

  predicate GoodDefinitions(s: Snapshot) {
    forall id | id in s.tokens.definitions :: GoodDefinition(id, s.tokens.definitions[id])
  }

  /** Every definition is well formed, and under every possible token key exactly its recorded supply is held. */
  ghost predicate Balanced(s: Snapshot) {
    && GoodDefinitions(s)
    && forall id, symbol | ColonFree(symbol) :: Held(s, id, symbol) == RecordedSupply(s, id, symbol)
  }

  const TOKEN_NAMESPACE := "intertrain:"
  const TOKEN_REFERENCE := "token:"

  /** The keys under which custom tokens are held. */
  predicate IsTokenKey(key: string) {
    TOKEN_NAMESPACE <= key &&
    var rest := key[|TOKEN_NAMESPACE|..];
    FirstColon(rest) < |rest| && TOKEN_REFERENCE <= rest[FirstColon(rest) + 1..]
  }

  /** An applied bridge operation that moves a holding under the key of a custom token. */
  predicate BridgesTokenKey(env: Env, s: Snapshot, op: Op) {
    op.Bridge? && Apply(env, s, op).outcome == Done(true) && IsTokenKey(CanonicalKey(op.asset.assetId))
  }

  /* ---------- keys ---------- */

  lemma CustomKeyParts(id: Hash, symbol: string)
    ensures CustomKey(id, symbol) == "intertrain" + ":" + symbol + ":" + ("token:" + id.hex)
  {
  }

  lemma CustomKeysDiffer(id: Hash, symbol: string, id': Hash, symbol': string)
    requires ColonFree(symbol) && ColonFree(symbol')
    ensures CustomKey(id, symbol) == CustomKey(id', symbol') <==> id == id' && symbol == symbol'
  {
    CustomKeyParts(id, symbol);
    CustomKeyParts(id', symbol');
    if CustomKey(id, symbol) == CustomKey(id', symbol') {
      KeyPartsUnique("intertrain", symbol, "token:" + id.hex, "intertrain", symbol', "token:" + id'.hex);
      assert id.hex == ("token:" + id.hex)[6..] && id'.hex == ("token:" + id'.hex)[6..];
    }
  }

  lemma ForeignKeyDiffers(asset: AssetId, id: Hash, symbol: string)
    requires ColonFree(asset.namespace) && asset.namespace != "intertrain"
    ensures CanonicalKey(asset) != CustomKey(id, symbol)
  {
    CustomKeyParts(id, symbol);
    var reference := if asset.contract.Some? then asset.contract.value else "native";
    var tail, tail' := asset.symbol + ":" + reference, symbol + ":" + ("token:" + id.hex);
    assert CanonicalKey(asset) == asset.namespace + ":" + tail;
    assert CustomKey(id, symbol) == "intertrain" + ":" + tail';
    FirstColonOf(asset.namespace, tail);
    FirstColonOf("intertrain", tail');
    assert (asset.namespace + ":" + tail)[..|asset.namespace|] == asset.namespace;
    assert ("intertrain" + ":" + tail')[..10] == "intertrain";
  }

  lemma UsdcIsForeign(asset: AssetId)
    requires IsSupportedUsdc(asset)
    ensures !IsTokenKey(CanonicalKey(asset))
  {
    hide IsSepoliaUsdc, IsDevnetUsdc;
    assert CanonicalKey(asset)[0] == 'e' || CanonicalKey(asset)[0] == 's';
    assert TOKEN_NAMESPACE[0] == 'i';
  }

  /** Every custom key has that form. */
  lemma CustomKeyIsTokenKey(id: Hash, symbol: string)
    requires ColonFree(symbol)
    ensures IsTokenKey(CustomKey(id, symbol))
  {
    CustomKeyParts(id, symbol);
    var reference := TOKEN_REFERENCE + id.hex;
    var rest := symbol + ":" + reference;
    assert CustomKey(id, symbol) == TOKEN_NAMESPACE + rest;
    assert (TOKEN_NAMESPACE + rest)[|TOKEN_NAMESPACE|..] == rest;
    FirstColonOf(symbol, reference);
    assert rest[|symbol| + 1..] == reference;
  }

  /** Every key of that form is the key of one token. */
  lemma TokenKeyIsCustom(key: string) returns (id: Hash, symbol: string)
    requires IsTokenKey(key)
    ensures ColonFree(symbol) && key == CustomKey(id, symbol)
  {
    var rest := key[|TOKEN_NAMESPACE|..];
    var j := FirstColon(rest);
    var reference := rest[j + 1..];
    symbol, id := rest[..j], Hash(reference[|TOKEN_REFERENCE|..]);
    assert reference == TOKEN_REFERENCE + id.hex;
    SplitAt(rest, j);
    assert key == TOKEN_NAMESPACE + rest;
    CustomKeyParts(id, symbol);
  }

  /** Of the identities the bridge interface reads, those in the namespace of custom tokens that name a token. */
  lemma ParsedTokenKey(asset: AssetId)
    requires Parsed(asset)
    ensures asset.contract.Some?
    ensures IsTokenKey(CanonicalKey(asset)) <==>
            asset.namespace == "intertrain" && TOKEN_REFERENCE <= asset.contract.value
  {
    var text :| ParseAssetId(text) == Some(asset);
    ParsePrintsBack(text);
    hide ParseAssetId, IsTokenKey;
    PrintedTokenKey(asset.namespace, asset.symbol, asset.contract.value);
  }

  lemma PrintedTokenKey(namespace: string, symbol: string, reference: string)
    requires ColonFree(namespace) && ColonFree(symbol)
    ensures IsTokenKey(namespace + ":" + symbol + ":" + reference) <==>
            namespace == "intertrain" && TOKEN_REFERENCE <= reference
  {
    hide IsTokenKey, CustomKey;
    var key := namespace + ":" + symbol + ":" + reference;
    if IsTokenKey(key) {
      var id, custom := TokenKeyIsCustom(key);
      CustomKeyParts(id, custom);
      KeyPartsUnique(namespace, symbol, reference, "intertrain", custom, "token:" + id.hex);
    }
    if namespace == "intertrain" && TOKEN_REFERENCE <= reference {
      var id := Hash(reference[|TOKEN_REFERENCE|..]);
      assert reference == "token:" + id.hex;
      CustomKeyParts(id, symbol);
      CustomKeyIsTokenKey(id, symbol);
    }
  }

  /* ---------- one balance at a time ---------- */

  ghost predicate SameHeld(s: Snapshot, s': Snapshot) {
    forall id, symbol | ColonFree(symbol) :: Held(s', id, symbol) == Held(s, id, symbol)
  }

  lemma ForeignHoldingMoves(s: Snapshot, a: Address, key: string, amount: u128)
    requires !IsTokenKey(key)
    ensures SameHeld(s, SetHolding(s, a, key, amount))
  {
    hide KeyTotal, CanonicalKey, IsTokenKey;
    forall id, symbol | ColonFree(symbol)
      ensures Held(SetHolding(s, a, key, amount), id, symbol) == Held(s, id, symbol)
    {
      CustomKeyIsTokenKey(id, symbol);
      HoldingMoves(s, a, key, amount, CustomKey(id, symbol));
    }
  }

  /** Moving a token balance moves that token's total and no other. */
  lemma AdjustMoves(s: Snapshot, d: TokenDefinition, a: Address, amount: u128, add: bool, id: Hash, symbol: string)
    requires ColonFree(d.symbol) && ColonFree(symbol) && AdjustTokenBalance(s, d, a, amount, add).Ok?
    ensures Held(AdjustTokenBalance(s, d, a, amount, add).value, id, symbol)
            == Held(s, id, symbol)
               + (if id != d.tokenId || symbol != d.symbol then 0 else if add then amount else 0 - amount)
    ensures AssetBalance(s, a, TokenKey(d)) <= Held(s, d.tokenId, d.symbol)
  {
    hide KeyTotal, CanonicalKey;
    var s' := AdjustTokenBalance(s, d, a, amount, add).value;
    assert TokenKey(d) == CustomKey(d.tokenId, d.symbol) by { TokenKeyOf(d); }
    CustomKeysDiffer(id, symbol, d.tokenId, d.symbol);
    HoldingMoves(s, a, TokenKey(d), AssetBalance(s', a, TokenKey(d)), CustomKey(id, symbol));
    HoldingMoves(s, a, TokenKey(d), AssetBalance(s', a, TokenKey(d)), TokenKey(d));
  }

  lemma AdjustAll(s: Snapshot, d: TokenDefinition, a: Address, amount: u128, add: bool)
    requires ColonFree(d.symbol)
    ensures var r := AdjustTokenBalance(s, d, a, amount, add);
            r.Ok? ==>
              (&& r.value == s.(assets := r.value.assets)
               && forall id, symbol | ColonFree(symbol) ::
                    Held(r.value, id, symbol) == Held(s, id, symbol)
                      + (if id != d.tokenId || symbol != d.symbol then 0 else if add then amount else 0 - amount))
  {
    hide KeyTotal, CanonicalKey;
    var r := AdjustTokenBalance(s, d, a, amount, add);
    if r.Ok? {
      forall id, symbol | ColonFree(symbol)
        ensures Held(r.value, id, symbol) == Held(s, id, symbol)
                  + (if id != d.tokenId || symbol != d.symbol then 0 else if add then amount else 0 - amount)
      {
        AdjustMoves(s, d, a, amount, add, id, symbol);
      }
    }
  }

  lemma TokenKeyOf(d: TokenDefinition)
    ensures TokenKey(d) == CustomKey(d.tokenId, d.symbol)
  {
  }

  /** No holder has more than the recorded supply. */
  lemma HolderWithinSupply(s: Snapshot, id: Hash, a: Address)
    requires Balanced(s) && id in s.tokens.definitions
    ensures AssetBalance(s, a, TokenKey(s.tokens.definitions[id])) <= s.tokens.definitions[id].totalSupply
  {
    hide KeyTotal, CanonicalKey;
    var d := s.tokens.definitions[id];
    TokenKeyOf(d);
    HoldingMoves(s, a, TokenKey(d), 0, TokenKey(d));
    assert Held(s, id, d.symbol) == RecordedSupply(s, id, d.symbol);
  }

  /* ---------- each token operation ---------- */

  lemma CreateBalanced(s: Snapshot, u: UnsignedTokenOperation, id: Hash)
    requires Balanced(s) && !BadCreate(u)
    ensures var r := CreateToken(s, u, id);
            (r.Ok? ==> Balanced(r.value)) && r != Err(TokenBalanceOverflow)
  {
    if id !in s.tokens.definitions {
      hide KeyTotal, CanonicalKey;
      var d := NewToken(u, id);
      var s' := SetToken(s, id, d);
      assert forall i | 0 <= i < |u.symbol| :: Alphanumeric(u.symbol[i]);
      assert forall id', symbol | ColonFree(symbol) :: Held(s', id', symbol) == Held(s, id', symbol);
      HeldByOne(s, d, u.from);
      AdjustAll(s', d, u.from, u.amount, true);
    }
  }

  /** A token without a definition is held by nobody. */
  lemma HeldByOne(s: Snapshot, d: TokenDefinition, a: Address)
    requires Balanced(s) && ColonFree(d.symbol) && d.tokenId !in s.tokens.definitions
    ensures AssetBalance(s, a, TokenKey(d)) == 0
  {
    hide KeyTotal, CanonicalKey;
    TokenKeyOf(d);
    HoldingMoves(s, a, TokenKey(d), 0, TokenKey(d));
    assert Held(s, d.tokenId, d.symbol) == RecordedSupply(s, d.tokenId, d.symbol);
  }

  lemma TransferBalanced(s: Snapshot, u: UnsignedTokenOperation, d: TokenDefinition)
    requires Balanced(s) && u.tokenId in s.tokens.definitions && d == s.tokens.definitions[u.tokenId]
    ensures var r := TransferToken(s, u, d);
            (r.Ok? ==> Balanced(r.value) && r.value.tokens == s.tokens) && r != Err(TokenBalanceOverflow)
  {
    hide KeyTotal, CanonicalKey;
    var debit := AdjustTokenBalance(s, d, u.from, u.amount, false);
    AdjustAll(s, d, u.from, u.amount, false);
    if debit.Ok? && u.to.Some? {
      AdjustAll(debit.value, d, u.to.value, u.amount, true);
      RoomAfterDebit(s, d, u.from, u.to.value, u.amount);
    }
  }

  /** What a debit frees always fits where the credit goes. */
  lemma RoomAfterDebit(s: Snapshot, d: TokenDefinition, from: Address, to: Address, amount: u128)
    requires Balanced(s) && d.tokenId in s.tokens.definitions && d == s.tokens.definitions[d.tokenId]
    ensures var debit := AdjustTokenBalance(s, d, from, amount, false);
            debit.Ok? ==> AssetBalance(debit.value, to, TokenKey(d)) + amount <= U128_MAX
  {
    hide KeyTotal, CanonicalKey;
    var debit := AdjustTokenBalance(s, d, from, amount, false);
    if debit.Ok? {
      AdjustMoves(s, d, from, amount, false, d.tokenId, d.symbol);
      assert Held(s, d.tokenId, d.symbol) == RecordedSupply(s, d.tokenId, d.symbol);
      TokenKeyOf(d);
      HoldingMoves(debit.value, to, TokenKey(d), 0, TokenKey(d));
    }
  }

  lemma MintBalanced(s: Snapshot, u: UnsignedTokenOperation, d: TokenDefinition)
    requires Balanced(s) && u.tokenId in s.tokens.definitions && d == s.tokens.definitions[u.tokenId]
    ensures var r := MintToken(s, u, d);
            (r.Ok? ==> Balanced(r.value)) && r != Err(TokenBalanceOverflow)
  {
    hide KeyTotal, CanonicalKey;
    if u.to.Some? && d.totalSupply + u.amount <= U128_MAX {
      var d' := d.(totalSupply := d.totalSupply + u.amount);
      AdjustAll(s, d', u.to.value, u.amount, true);
      HolderWithinSupply(s, u.tokenId, u.to.value);
      if MintToken(s, u, d).Ok? {
        var moved, s' := AdjustTokenBalance(s, d', u.to.value, u.amount, true).value, MintToken(s, u, d).value;
        assert forall id, symbol | ColonFree(symbol) :: Held(s', id, symbol) == Held(moved, id, symbol)
                 && Held(s, id, symbol) == RecordedSupply(s, id, symbol);
      }
    }
  }

  /** The second subtraction of a burn cannot fail: the holder's balance is part of the supply. */
  lemma BurnBalanced(s: Snapshot, u: UnsignedTokenOperation, d: TokenDefinition)
    requires Balanced(s) && u.tokenId in s.tokens.definitions && d == s.tokens.definitions[u.tokenId]
    ensures var r := BurnToken(s, u, d);
            && (r.Ok? ==> Balanced(r.value))
            && (r == Err(TokenInsufficientBalance) ==> AssetBalance(s, u.from, TokenKey(d)) < u.amount)
  {
    hide KeyTotal, CanonicalKey;
    AdjustAll(s, d, u.from, u.amount, false);
    HolderWithinSupply(s, u.tokenId, u.from);
    if BurnToken(s, u, d).Ok? {
      var moved, s' := AdjustTokenBalance(s, d, u.from, u.amount, false).value, BurnToken(s, u, d).value;
      assert forall id, symbol | ColonFree(symbol) :: Held(s', id, symbol) == Held(moved, id, symbol)
               && Held(s, id, symbol) == RecordedSupply(s, id, symbol);
    }
  }

  lemma GovernBalanced(s: Snapshot, u: UnsignedTokenOperation, d: TokenDefinition)
    requires Balanced(s) && u.tokenId in s.tokens.definitions && d == s.tokens.definitions[u.tokenId]
    ensures GovernToken(s, u, d).Ok? ==> Balanced(GovernToken(s, u, d).value)
    ensures FreezeToken(s, u, d).Ok? ==> Balanced(FreezeToken(s, u, d).value)
  {
    hide KeyTotal, CanonicalKey;
    if FreezeToken(s, u, d).Ok? {
      BalancedIfSame(s, FreezeToken(s, u, d).value);
    }
    if GovernToken(s, u, d).Ok? {
      var s' := GovernToken(s, u, d).value;
      assert forall id, symbol | ColonFree(symbol) :: Held(s', id, symbol) == Held(s, id, symbol)
               && RecordedSupply(s', id, symbol) == RecordedSupply(s, id, symbol);
    }
  }

  lemma BalancedIfSame(s: Snapshot, s': Snapshot)
    requires Balanced(s) && SameHeld(s, s') && s'.tokens.definitions == s.tokens.definitions
    ensures Balanced(s')
  {
    hide Held;
    assert forall id, symbol | ColonFree(symbol) :: RecordedSupply(s', id, symbol) == RecordedSupply(s, id, symbol);
  }

  /** Holdings and supply stay equal under every token action, and no credit can overflow. */
  lemma TokenActionBalanced(env: Env, s: Snapshot, u: UnsignedTokenOperation, id: Hash)
    requires Balanced(s) && (u.kind == Create ==> !BadCreate(u))
    ensures var r := TokenAction(env, s, u, id);
            (r.Ok? ==> Balanced(r.value)) && r != Err(TokenBalanceOverflow)
  {
    if u.kind == Create {
      CreateBalanced(s, u, env.tokenIdOf(id));
    } else if u.tokenId in s.tokens.definitions {
      hide Balanced;
      var d := s.tokens.definitions[u.tokenId];
      TransferBalanced(s, u, d);
      MintBalanced(s, u, d);
      BurnBalanced(s, u, d);
      GovernBalanced(s, u, d);
    }
  }

  /* ---------- every operation, and runs ---------- */

  lemma TokenStepBalanced(env: Env, s: Snapshot, op: TokenOperation, id: Hash)
    requires Balanced(s)
    ensures var step := ApplyToken(env, s, op, id);
            Balanced(step.state) && step.outcome != Failed(TokenBalanceOverflow)
  {
    hide KeyTotal, CanonicalKey, IsDevnet;
    var u := op.unsigned;
    var paid := ChargeTokenFee(s, u);
    if ValidateToken(env, s, op).Ok? && paid.Ok? {
      BalancedIfSame(s, paid.value);
      TokenActionBalanced(env, paid.value, u, id);
      var acted := TokenAction(env, paid.value, u, id);
      if acted.Ok? {
        var s' := acted.value.(tokens := acted.value.tokens.(processed := acted.value.tokens.processed + {id},
                                                             records := acted.value.tokens.records[id := op]));
        BalancedIfSame(acted.value, s');
      }
    }
  }

  lemma EntryHeld(s: Snapshot, a: Address)
    ensures SameHeld(s, s.(assets := s.assets.(balances := s.assets.balances[a := AssetsOf(s, a)])))
  {
    hide KeyTotal, CanonicalKey;
    forall id, symbol | ColonFree(symbol)
      ensures KeyTotal(s.assets.balances[a := AssetsOf(s, a)], CustomKey(id, symbol)) == Held(s, id, symbol)
    {
      EntryHoldsNothing(s, a, CustomKey(id, symbol));
    }
  }

  lemma BridgeStepHeld(s: Snapshot, op: AssetOperation)
    requires ApplyAssetOperation(s, op).outcome == Done(true) ==> !IsTokenKey(CanonicalKey(op.assetId))
    ensures SameHeld(s, ApplyAssetOperation(s, op).state)
  {
    hide KeyTotal, CanonicalKey, IsSupportedUsdc, IsTokenKey;
    var key, s' := CanonicalKey(op.assetId), ApplyAssetOperation(s, op).state;
    var entered := s.(assets := s.assets.(balances := s.assets.balances[op.address := AssetsOf(s, op.address)]));
    EntryHeld(s, op.address);
    if ApplyAssetOperation(s, op).outcome == Done(true) {
      var amount := AssetBalance(s', op.address, key);
      ForeignHoldingMoves(entered, op.address, key, amount);
      assert s'.assets.balances == SetHolding(entered, op.address, key, amount).assets.balances;
    } else {
      assert s'.assets.balances == s.assets.balances || s'.assets.balances == entered.assets.balances;
    }
  }

  /** An applied bridge operation moves the holding under its key by its amount. */
  lemma BridgeMovesHeld(s: Snapshot, op: AssetOperation)
    requires ApplyAssetOperation(s, op).outcome == Done(true)
    ensures var key, s' := CanonicalKey(op.assetId), ApplyAssetOperation(s, op).state;
            KeyTotal(s'.assets.balances, key)
            == KeyTotal(s.assets.balances, key) + (if op.kind == BridgeMint then op.amount else 0 - op.amount)
    ensures op.amount > 0
  {
    hide KeyTotal, CanonicalKey, IsSupportedUsdc;
    var key, s' := CanonicalKey(op.assetId), ApplyAssetOperation(s, op).state;
    var entered := s.(assets := s.assets.(balances := s.assets.balances[op.address := AssetsOf(s, op.address)]));
    EntryHoldsNothing(s, op.address, key);
    var amount := AssetBalance(s', op.address, key);
    HoldingMoves(entered, op.address, key, amount, key);
    assert s'.assets.balances == SetHolding(entered, op.address, key, amount).assets.balances;
  }

  /** A bridge operation leaves every token's holdings equal to its supply if and only if it is not applied to the key
      of a custom token. */
  lemma BridgeBalancedExactly(s: Snapshot, op: AssetOperation)
    requires Balanced(s)
    ensures var step := ApplyAssetOperation(s, op);
            Balanced(step.state) <==> !(step.outcome == Done(true) && IsTokenKey(CanonicalKey(op.assetId)))
  {
    hide KeyTotal, CanonicalKey, IsTokenKey, ApplyAssetOperation;
    var step, key := ApplyAssetOperation(s, op), CanonicalKey(op.assetId);
    BridgeWrites(s, op);
    if step.outcome == Done(true) && IsTokenKey(key) {
      var id, symbol := TokenKeyIsCustom(key);
      BridgeMovesHeld(s, op);
      assert Held(s, id, symbol) == RecordedSupply(s, id, symbol);
      assert Held(step.state, id, symbol) != RecordedSupply(step.state, id, symbol);
    } else {
      BridgeStepHeld(s, op);
      BalancedIfSame(s, step.state);
    }
  }

  lemma SwapStepHeld(env: Env, s: Snapshot, op: MnaSwapOperation)
    ensures SameHeld(s, ApplySwap(env, s, op).state)
  {
    hide KeyTotal, CanonicalKey, IsSupportedUsdc;
    var u, s' := op.unsigned, ApplySwap(env, s, op).state;
    if ValidateSwap(env, s, op).Ok? {
      UsdcIsForeign(u.collateralAsset);
      var amount := AssetBalance(s', u.from, CanonicalKey(u.collateralAsset));
      ForeignHoldingMoves(s, u.from, CanonicalKey(u.collateralAsset), amount);
      assert s'.assets.balances == s.assets.balances
             || s'.assets.balances == SetHolding(s, u.from, CanonicalKey(u.collateralAsset), amount).assets.balances;
    }
  }

  /** Every operation of every family, accepted or not, leaves holdings equal to supply, except exactly a bridge
      operation that is applied to the key of a custom token. */
  lemma StepBalanced(env: Env, s: Snapshot, op: Op)
    requires Balanced(s)
    ensures Balanced(Apply(env, s, op).state) <==> !BridgesTokenKey(env, s, op)
    ensures Apply(env, s, op).outcome != Failed(TokenBalanceOverflow)
  {
    hide KeyTotal, CanonicalKey, Balanced, IsSupportedUsdc, IsSupportedSol, TokenEffect, IsTokenKey;
    match op
    case Transfer(tx) => TransferWrites(env, s, tx); BalancedIfSame(s, ApplyTransaction(env, s, tx).state);
    case Bridge(o) => BridgeBalancedExactly(s, o);
    case Token(o) => TokenStepBalanced(env, s, o, env.tokenOpId(o.unsigned));
    case Swap(o) => SwapStepHeld(env, s, o); SwapWrites(env, s, o); BalancedIfSame(s, ApplySwap(env, s, o).state);
    case Reserve(o) => ReserveWrites(env, s, o); BalancedIfSame(s, ApplyReserve(env, s, o).state);
    case Program(o, height) =>
      ProgramWrites(env, s, o, height);
      BalancedIfSame(s, ApplyProgram(env, s, o, height).state);
    case Credit(a, amount) => BalancedIfSame(s, Apply(env, s, op).state);
  }

  /** Balanced at every point of an accepted run. */
  ghost predicate BalancedThroughout(env: Env, s: Snapshot, ops: seq<Op>)
    decreases |ops|
  {
    && Balanced(s)
    && (ops != [] && Apply(env, s, ops[0]).outcome.Done? ==>
          BalancedThroughout(env, Apply(env, s, ops[0]).state, ops[1..]))
  }

  /** No operation of the run is a bridge operation applied to the key of a custom token. */
  predicate TokensUnbridged(env: Env, s: Snapshot, ops: seq<Op>)
    decreases |ops|
  {
    ops != [] && Apply(env, s, ops[0]).outcome.Done? ==>
      !BridgesTokenKey(env, s, ops[0]) && TokensUnbridged(env, Apply(env, s, ops[0]).state, ops[1..])
  }

  /** All along a run each token's holdings add up to its supply, which stays within its cap, if and only if no bridge
      operation is applied to the key of a custom token. */
  lemma {:induction false} RunsStayBalanced(env: Env, s: Snapshot, ops: seq<Op>)
    requires Balanced(s)
    ensures BalancedThroughout(env, s, ops) <==> TokensUnbridged(env, s, ops)
    decreases |ops|
  {
    hide Balanced, Apply, BridgesTokenKey;
    if ops != [] && Apply(env, s, ops[0]).outcome.Done? {
      StepBalanced(env, s, ops[0]);
      if !BridgesTokenKey(env, s, ops[0]) {
        RunsStayBalanced(env, Apply(env, s, ops[0]).state, ops[1..]);
      }
    }
  }

  lemma {:induction false} BalancedAtTheEnd(env: Env, s: Snapshot, ops: seq<Op>)
    requires BalancedThroughout(env, s, ops)
    ensures Run(env, s, ops).Some? ==> Balanced(Run(env, s, ops).value)
    decreases |ops|
  {
    hide Balanced, Apply;
    if ops != [] && Apply(env, s, ops[0]).outcome.Done? {
      BalancedAtTheEnd(env, Apply(env, s, ops[0]).state, ops[1..]);
    }
  }

  /** The bridge interface reads this identity, the ledger applies the mint, and the token it names has a holder but
      no supply. */
  lemma BridgedTokenHasNoSupply(chainId: string, feeMinimum: u128, accounts: map<Address, Account>, o: AssetOperation,
      id: Hash)
    requires o.version == 1 && o.kind == BridgeMint && o.amount > 0
    requires o.assetId == AssetId("intertrain", "USDC", Some("token:" + id.hex), 6)
    ensures Parsed(o.assetId)
    ensures var s := GenesisState(chainId, feeMinimum, accounts);
            var step := ApplyAssetOperation(s, o);
            && Balanced(s) && step.outcome == Done(true) && !Balanced(step.state)
            && Held(step.state, id, "USDC") == o.amount && RecordedSupply(step.state, id, "USDC") == 0
  {
    hide ParseAssetId, KeyTotal, IsSepoliaUsdc, IsDevnetUsdc, IsTokenKey;
    var s := GenesisState(chainId, feeMinimum, accounts);
    assert AsciiUpper("USDC") == "USDC";
    PrintedParses("intertrain", "USDC", "token:" + id.hex, 6);
    GenesisIsBalanced(chainId, feeMinimum, accounts);
    CustomKeyParts(id, "USDC");
    CustomKeyIsTokenKey(id, "USDC");
    assert CanonicalKey(o.assetId) == CustomKey(id, "USDC");
    hide CanonicalKey;
    BridgeMovesHeld(s, o);
    BridgeBalancedExactly(s, o);
    assert Held(s, id, "USDC") == RecordedSupply(s, id, "USDC");
  }

  lemma GenesisIsBalanced(chainId: string, feeMinimum: u128, accounts: map<Address, Account>)
    ensures Balanced(GenesisState(chainId, feeMinimum, accounts))
  {
    var s := GenesisState(chainId, feeMinimum, accounts);
    forall id, symbol | ColonFree(symbol) ensures Held(s, id, symbol) == 0 {
      TotalEmpty(s.assets.balances, HoldingOf(CustomKey(id, symbol)));
    }
  }
}
