/** Between a freeze and its unfreeze, and between a pause and its unpause, balances stand still. */
module TokenHolds {
  import opened Wrappers
  import opened Core
  import opened Ledger
  import opened Frames
  import opened TokenLedger
  import Nonces

  function TokenBalance(s: Snapshot, id: Hash, a: Address): u128
    requires id in s.tokens.definitions
  {
    AssetBalance(s, a, TokenKey(s.tokens.definitions[id]))
  }

  /** The token still exists under the same key. */
  predicate SameToken(s: Snapshot, s': Snapshot, id: Hash) {
    && id in s.tokens.definitions && id in s'.tokens.definitions
    && s'.tokens.definitions[id].symbol == s.tokens.definitions[id].symbol
    && s'.tokens.definitions[id].decimals == s.tokens.definitions[id].decimals
    && s'.tokens.definitions[id].tokenId == s.tokens.definitions[id].tokenId
  }

  predicate Frozen(s: Snapshot, id: Hash, a: Address) {
    (id, a) in s.tokens.frozen
  }

  predicate Paused(s: Snapshot, id: Hash) {
    id in s.tokens.definitions && s.tokens.definitions[id].paused
  }

  predicate LiftsFreeze(u: UnsignedTokenOperation, id: Hash, a: Address) {
    u.kind == Unfreeze && u.tokenId == id && u.to == Some(a)
  }

  predicate LiftsPause(u: UnsignedTokenOperation, id: Hash) {
    u.kind == Unpause && u.tokenId == id
  }

  predicate Unfreezes(op: Op, id: Hash, a: Address) {
    op.Token? && LiftsFreeze(op.token.unsigned, id, a)
  }

  predicate Unpauses(op: Op, id: Hash) {
    op.Token? && LiftsPause(op.token.unsigned, id)
  }

  /** A bridge operation on the token's own key. */
  predicate BridgesToken(s: Snapshot, op: Op, id: Hash)
    requires id in s.tokens.definitions
  {
    op.Bridge? && CanonicalKey(op.asset.assetId) == TokenKey(s.tokens.definitions[id])
  }

  /** The same, for one account. */
  predicate BridgesInto(s: Snapshot, op: Op, id: Hash, a: Address)
    requires id in s.tokens.definitions
  {
    BridgesToken(s, op, id) && op.asset.address == a
  }

  /** The balance of one account in one token did not move. */
  predicate Still(s: Snapshot, s': Snapshot, id: Hash, a: Address) {
    SameToken(s, s', id) && TokenBalance(s', id, a) == TokenBalance(s, id, a)
  }

  /** What holding means from one state to the next: the frozen account keeps its balance and stays frozen;
      the paused token keeps every balance and its supply and stays paused. Either may be excused. */
  ghost predicate Holds(s: Snapshot, s': Snapshot, id: Hash, a: Address, unfreezes: bool, unpauses: bool)
    requires id in s.tokens.definitions
  {
    && SameToken(s, s', id)
    && (Frozen(s, id, a) && !unfreezes ==> Frozen(s', id, a) && Still(s, s', id, a))
    && (Paused(s, id) && !unpauses ==>
          Paused(s', id) && s'.tokens.definitions[id].totalSupply == s.tokens.definitions[id].totalSupply
          && forall b :: Still(s, s', id, b))
  }

  /** If nothing about the token book and the token's key changed, everything holds. */
  lemma UntouchedHolds(s: Snapshot, s': Snapshot, id: Hash, a: Address)
    requires id in s.tokens.definitions
    requires s'.tokens.definitions == s.tokens.definitions && s'.tokens.frozen == s.tokens.frozen
    requires forall b :: AssetBalance(s', b, TokenKey(s.tokens.definitions[id]))
                         == AssetBalance(s, b, TokenKey(s.tokens.definitions[id]))
    ensures Holds(s, s', id, a, false, false)
  {
    hide TokenKey;
  }

  lemma OtherKeyUntouched(s: Snapshot, s': Snapshot, a: Address, key: string, amount: u128, other: string)
    requires key != other && s'.assets.balances == SetHolding(s, a, key, amount).assets.balances
    ensures forall b :: AssetBalance(s', b, other) == AssetBalance(s, b, other)
  {
  }

  /** Adjusting one holder of one token moves no other holding of any token. */
  lemma AdjustTouches(s: Snapshot, d: TokenDefinition, a: Address, amount: u128, add: bool, e: TokenDefinition)
    requires ColonFree(d.symbol) && ColonFree(e.symbol) && AdjustTokenBalance(s, d, a, amount, add).Ok?
    ensures var s' := AdjustTokenBalance(s, d, a, amount, add).value;
            s' == s.(assets := s'.assets)
            && forall b | b != a || d.tokenId != e.tokenId ::
              AssetBalance(s', b, TokenKey(e)) == AssetBalance(s, b, TokenKey(e))
  {
    hide CanonicalKey;
    TokenKeyOf(d);
    TokenKeyOf(e);
    CustomKeysDiffer(d.tokenId, d.symbol, e.tokenId, e.symbol);
  }

  lemma CreateHolds(s: Snapshot, u: UnsignedTokenOperation, newId: Hash, id: Hash, a: Address)
    requires GoodDefinitions(s) && id in s.tokens.definitions && !BadCreate(u)
    ensures var r := CreateToken(s, u, newId); r.Ok? ==> Holds(s, r.value, id, a, false, false)
  {
    if CreateToken(s, u, newId).Ok? {
      hide TokenKey;
      var d := NewToken(u, newId);
      assert forall i | 0 <= i < |u.symbol| :: Alphanumeric(u.symbol[i]);
      if u.amount > 0 {
        AdjustTouches(SetToken(s, newId, d), d, u.from, u.amount, true, s.tokens.definitions[id]);
      }
    }
  }

  lemma TransferHolds(s: Snapshot, u: UnsignedTokenOperation, d: TokenDefinition, id: Hash, a: Address)
    requires GoodDefinitions(s) && id in s.tokens.definitions
    requires u.tokenId in s.tokens.definitions && d == s.tokens.definitions[u.tokenId]
    ensures TransferToken(s, u, d).Ok? ==> Holds(s, TransferToken(s, u, d).value, id, a, false, false)
  {
    if TransferToken(s, u, d).Ok? {
      hide TokenKey;
      var e := s.tokens.definitions[id];
      var debit := AdjustTokenBalance(s, d, u.from, u.amount, false).value;
      AdjustTouches(s, d, u.from, u.amount, false, e);
      AdjustTouches(debit, d, u.to.value, u.amount, true, e);
    }
  }

  lemma MintHolds(s: Snapshot, u: UnsignedTokenOperation, d: TokenDefinition, id: Hash, a: Address)
    requires GoodDefinitions(s) && id in s.tokens.definitions
    requires u.tokenId in s.tokens.definitions && d == s.tokens.definitions[u.tokenId]
    ensures MintToken(s, u, d).Ok? ==> Holds(s, MintToken(s, u, d).value, id, a, false, false)
  {
    if MintToken(s, u, d).Ok? {
      hide TokenKey, CanonicalKey;
      var d' := d.(totalSupply := d.totalSupply + u.amount);
      AdjustTouches(s, d', u.to.value, u.amount, true, s.tokens.definitions[id]);
      SameKeySameBalance(MintToken(s, u, d).value, s, id);
    }
  }

  lemma BurnHolds(s: Snapshot, u: UnsignedTokenOperation, d: TokenDefinition, id: Hash, a: Address)
    requires GoodDefinitions(s) && id in s.tokens.definitions
    requires u.tokenId in s.tokens.definitions && d == s.tokens.definitions[u.tokenId]
    ensures BurnToken(s, u, d).Ok? ==> Holds(s, BurnToken(s, u, d).value, id, a, false, false)
  {
    if BurnToken(s, u, d).Ok? {
      hide TokenKey;
      AdjustTouches(s, d, u.from, u.amount, false, s.tokens.definitions[id]);
      SameKeySameBalance(BurnToken(s, u, d).value, s, id);
    }
  }

  /** The key depends on the identity of a token only, not on its supply. */
  lemma SameKeySameBalance(s': Snapshot, s: Snapshot, id: Hash)
    requires SameToken(s, s', id)
    ensures TokenKey(s'.tokens.definitions[id]) == TokenKey(s.tokens.definitions[id])
  {
  }

  lemma GovernHolds(s: Snapshot, u: UnsignedTokenOperation, d: TokenDefinition, id: Hash, a: Address)
    requires GoodDefinitions(s) && id in s.tokens.definitions
    requires u.tokenId in s.tokens.definitions && d == s.tokens.definitions[u.tokenId]
    ensures u.kind == Freeze || u.kind == Unfreeze ==>
              FreezeToken(s, u, d).Ok? ==> Holds(s, FreezeToken(s, u, d).value, id, a, LiftsFreeze(u, id, a), false)
    ensures GovernToken(s, u, d).Ok? ==> Holds(s, GovernToken(s, u, d).value, id, a, false, LiftsPause(u, id))
  {
    hide TokenKey;
    if GovernToken(s, u, d).Ok? {
      SameKeySameBalance(GovernToken(s, u, d).value, s, id);
    }
  }

  lemma TokenActionHolds(env: Env, s: Snapshot, u: UnsignedTokenOperation, opId: Hash, id: Hash, a: Address)
    requires GoodDefinitions(s) && id in s.tokens.definitions && (u.kind == Create ==> !BadCreate(u))
    ensures var r := TokenAction(env, s, u, opId);
            r.Ok? ==> Holds(s, r.value, id, a, LiftsFreeze(u, id, a), LiftsPause(u, id))
  {
    if u.kind == Create {
      CreateHolds(s, u, env.tokenIdOf(opId), id, a);
    } else if u.tokenId in s.tokens.definitions {
      var d := s.tokens.definitions[u.tokenId];
      TransferHolds(s, u, d, id, a);
      MintHolds(s, u, d, id, a);
      BurnHolds(s, u, d, id, a);
      GovernHolds(s, u, d, id, a);
      hide TransferToken, MintToken, BurnToken, FreezeToken, GovernToken, Still;
    }
  }

  lemma ValidatedCreate(env: Env, s: Snapshot, op: TokenOperation)
    requires ValidateToken(env, s, op).Ok?
    ensures op.unsigned.kind == Create ==> !BadCreate(op.unsigned)
  {
  }

  predicate SameHoldings(s: Snapshot, s': Snapshot) {
    && s'.tokens.definitions == s.tokens.definitions && s'.tokens.frozen == s.tokens.frozen
    && s'.assets.balances == s.assets.balances
  }

  lemma HoldsThrough(s: Snapshot, s1: Snapshot, s2: Snapshot, s3: Snapshot, id: Hash, a: Address, unfreezes: bool,
      unpauses: bool)
    requires id in s.tokens.definitions && SameHoldings(s, s1) && SameHoldings(s2, s3)
    requires Holds(s1, s2, id, a, unfreezes, unpauses)
    ensures Holds(s, s3, id, a, unfreezes, unpauses)
  {
    hide TokenKey;
    forall b | Still(s1, s2, id, b) ensures Still(s, s3, id, b) {
    }
  }

  lemma TokenStepHolds(env: Env, s: Snapshot, op: TokenOperation, opId: Hash, id: Hash, a: Address)
    requires GoodDefinitions(s) && id in s.tokens.definitions
    ensures Holds(s, ApplyToken(env, s, op, opId).state, id, a, LiftsFreeze(op.unsigned, id, a),
            LiftsPause(op.unsigned, id))
  {
    hide TokenKey, TokenAction, ValidateToken;
    var paid := ChargeTokenFee(s, op.unsigned);
    if ApplyToken(env, s, op, opId).outcome == Done(true) {
      ValidatedCreate(env, s, op);
      TokenActionHolds(env, paid.value, op.unsigned, opId, id, a);
      var acted := TokenAction(env, paid.value, op.unsigned, opId);
      if acted.Ok? {
        HoldsThrough(s, paid.value, acted.value, ApplyToken(env, s, op, opId).state, id, a,
                     LiftsFreeze(op.unsigned, id, a), LiftsPause(op.unsigned, id));
      }
    }
  }

  lemma OtherKeyHolds(s: Snapshot, s': Snapshot, a: Address, key: string, amount: u128, id: Hash, holder: Address)
    requires id in s.tokens.definitions && s'.tokens == s.tokens && key != TokenKey(s.tokens.definitions[id])
    requires s'.assets.balances == SetHolding(s, a, key, amount).assets.balances
    ensures Holds(s, s', id, holder, false, false)
  {
    hide TokenKey;
    OtherKeyUntouched(s, s', a, key, amount, TokenKey(s.tokens.definitions[id]));
  }

  lemma EntryUntouched(s: Snapshot, s': Snapshot, a: Address, id: Hash, holder: Address)
    requires id in s.tokens.definitions && s'.tokens == s.tokens
    requires s'.assets.balances == s.assets.balances || s'.assets.balances == s.assets.balances[a := AssetsOf(s, a)]
    ensures Holds(s, s', id, holder, false, false)
  {
    hide TokenKey;
    UntouchedHolds(s, s', id, holder);
  }

  /** The three things a bridge operation can do to the balances. */
  lemma BridgedBalances(s: Snapshot, op: AssetOperation)
    ensures var key, s' := CanonicalKey(op.assetId), ApplyAssetOperation(s, op).state;
            || s'.assets.balances == s.assets.balances
            || s'.assets.balances == s.assets.balances[op.address := AssetsOf(s, op.address)]
            || s'.assets.balances == SetHolding(s, op.address, key, AssetBalance(s', op.address, key)).assets.balances
  {
    hide CanonicalKey, IsSupportedUsdc;
    var entered := s.assets.balances[op.address := AssetsOf(s, op.address)];
    var key, s' := CanonicalKey(op.assetId), ApplyAssetOperation(s, op).state;
    if ApplyAssetOperation(s, op).outcome == Done(true) {
      var amount := AssetBalance(s', op.address, key);
      assert s'.assets.balances == entered[op.address := AssetsOf(s, op.address)[key := amount]];
    }
  }

  /** A bridge operation disturbs a hold only where it moves the held token itself. */
  lemma BridgeStepHolds(s: Snapshot, op: AssetOperation, id: Hash, a: Address)
    requires id in s.tokens.definitions
    ensures Holds(s, ApplyAssetOperation(s, op).state, id, a, BridgesInto(s, Bridge(op), id, a),
                  BridgesToken(s, Bridge(op), id))
  {
    var key, s' := CanonicalKey(op.assetId), ApplyAssetOperation(s, op).state;
    BridgeWrites(s, op);
    BridgedBalances(s, op);
    hide CanonicalKey, ApplyAssetOperation, TokenKey;
    if s'.assets.balances == s.assets.balances
      || s'.assets.balances == s.assets.balances[op.address := AssetsOf(s, op.address)] {
      EntryUntouched(s, s', op.address, id, a);
    } else if key != TokenKey(s.tokens.definitions[id]) {
      OtherKeyHolds(s, s', op.address, key, AssetBalance(s', op.address, key), id, a);
    }
  }

  /** An applied bridge operation moves the balance of an account in a token, frozen, paused or not, if and only if it
      is on that account and under the token's key. */
  lemma BridgeMovesBalanceExactly(s: Snapshot, op: AssetOperation, id: Hash, a: Address)
    requires id in s.tokens.definitions && ApplyAssetOperation(s, op).outcome == Done(true)
    ensures Still(s, ApplyAssetOperation(s, op).state, id, a) <==> !BridgesInto(s, Bridge(op), id, a)
  {
    hide CanonicalKey, TokenKey, IsSupportedUsdc;
    BridgeWrites(s, op);
  }

  lemma SwappedBalances(env: Env, s: Snapshot, op: MnaSwapOperation)
    ensures var u, s' := op.unsigned, ApplySwap(env, s, op).state;
            var key := CanonicalKey(u.collateralAsset);
            || s'.assets.balances == s.assets.balances
            || (IsSupportedUsdc(u.collateralAsset)
                && s'.assets.balances == SetHolding(s, u.from, key, AssetBalance(s', u.from, key)).assets.balances)
  {
    hide CanonicalKey, IsSupportedUsdc;
  }

  lemma SwapStepHolds(env: Env, s: Snapshot, op: MnaSwapOperation, id: Hash, a: Address)
    requires GoodDefinitions(s) && id in s.tokens.definitions
    ensures Holds(s, ApplySwap(env, s, op).state, id, a, false, false)
  {
    var u, s' := op.unsigned, ApplySwap(env, s, op).state;
    SwapWrites(env, s, op);
    SwappedBalances(env, s, op);
    TokenKeyOf(s.tokens.definitions[id]);
    CustomKeyIsTokenKey(s.tokens.definitions[id].tokenId, s.tokens.definitions[id].symbol);
    hide CanonicalKey, TokenKey, CustomKey, IsTokenKey, IsSupportedUsdc, ApplySwap, Holds, GoodDefinitions,
         AssetBalance;
    if s'.assets.balances == s.assets.balances {
      EntryUntouched(s, s', u.from, id, a);
    } else {
      UsdcIsForeign(u.collateralAsset);
      OtherKeyHolds(s, s', u.from, CanonicalKey(u.collateralAsset),
                    AssetBalance(s', u.from, CanonicalKey(u.collateralAsset)), id, a);
    }
  }

  /** Any operation of any family leaves a frozen account and a paused token alone, unless it lifts the hold or is a
      bridge operation on the token's own key. */
  lemma StepHolds(env: Env, s: Snapshot, op: Op, id: Hash, a: Address)
    requires GoodDefinitions(s) && id in s.tokens.definitions
    ensures Holds(s, Apply(env, s, op).state, id, a, Unfreezes(op, id, a) || BridgesInto(s, op, id, a),
                  Unpauses(op, id) || BridgesToken(s, op, id))
  {
    match op
    case Transfer(tx) => TransferWrites(env, s, tx); hide TokenKey;
    case Bridge(o) => BridgeStepHolds(s, o, id, a);
    case Token(o) => TokenStepHolds(env, s, o, env.tokenOpId(o.unsigned), id, a);
    case Swap(o) => SwapStepHolds(env, s, o, id, a);
    case Reserve(o) => ReserveWrites(env, s, o); hide TokenKey;
    case Program(o, height) => ProgramWrites(env, s, o, height); hide TokenKey;
    case Credit(_, _) => hide TokenKey;
  }

  lemma TokenActionDefinitions(env: Env, s: Snapshot, u: UnsignedTokenOperation, opId: Hash)
    requires GoodDefinitions(s) && (u.kind == Create ==> !BadCreate(u))
    ensures TokenAction(env, s, u, opId).Ok? ==> GoodDefinitions(TokenAction(env, s, u, opId).value)
  {
    hide TokenKey;
    if u.kind == Create {
      assert forall i | 0 <= i < |u.symbol| :: Alphanumeric(u.symbol[i]);
    }
  }

  /** Definitions stay well formed over every operation, whatever bridge operations do to the holdings. */
  lemma DefinitionsStayGood(env: Env, s: Snapshot, op: Op)
    requires GoodDefinitions(s)
    ensures GoodDefinitions(Apply(env, s, op).state)
  {
    match op
    case Transfer(tx) => TransferWrites(env, s, tx);
    case Bridge(o) => BridgeWrites(s, o);
    case Token(o) =>
      hide TokenAction, ValidateToken;
      var paid := ChargeTokenFee(s, o.unsigned);
      if ValidateToken(env, s, o).Ok? && paid.Ok? {
        ValidatedCreate(env, s, o);
        TokenActionDefinitions(env, paid.value, o.unsigned, env.tokenOpId(o.unsigned));
      }
    case Swap(o) => SwapWrites(env, s, o);
    case Reserve(o) => ReserveWrites(env, s, o);
    case Program(o, height) => ProgramWrites(env, s, o, height);
    case Credit(_, _) =>
  }

  /* ---------- runs: freezes ---------- */

  /** The balance of the account stands still at every step of an accepted run. */
  predicate StillThroughout(env: Env, s: Snapshot, ops: seq<Op>, id: Hash, a: Address)
    decreases |ops|
  {
    ops != [] && Apply(env, s, ops[0]).outcome.Done? ==>
      && Still(s, Apply(env, s, ops[0]).state, id, a)
      && StillThroughout(env, Apply(env, s, ops[0]).state, ops[1..], id, a)
  }

  /** The operation is a bridge operation that is applied to this account under the token's own key. */
  predicate AppliedInto(env: Env, s: Snapshot, op: Op, id: Hash, a: Address) {
    id in s.tokens.definitions && BridgesInto(s, op, id, a) && Apply(env, s, op).outcome == Done(true)
  }

  /** No operation of the run is. */
  predicate NeverInto(env: Env, s: Snapshot, ops: seq<Op>, id: Hash, a: Address)
    decreases |ops|
  {
    ops != [] && Apply(env, s, ops[0]).outcome.Done? ==>
      !AppliedInto(env, s, ops[0], id, a) && NeverInto(env, Apply(env, s, ops[0]).state, ops[1..], id, a)
  }

  /** One accepted step of a frozen account that is not unfrozen. */
  lemma FrozenStep(env: Env, s: Snapshot, op: Op, id: Hash, a: Address)
    requires GoodDefinitions(s) && id in s.tokens.definitions && Frozen(s, id, a) && !Unfreezes(op, id, a)
    requires Apply(env, s, op).outcome.Done?
    ensures var s' := Apply(env, s, op).state;
            && (Still(s, s', id, a) <==> !AppliedInto(env, s, op, id, a))
            && (!AppliedInto(env, s, op, id, a) ==> Frozen(s', id, a))
  {
    StepHolds(env, s, op, id, a);
    if BridgesInto(s, op, id, a) {
      if Apply(env, s, op).outcome == Done(true) {
        BridgeMovesBalanceExactly(s, op.asset, id, a);
      } else {
        Nonces.DuplicateChangesNothing(env, s, op);
      }
    }
  }

  /** Until it is unfrozen, a frozen account's balance stands still throughout a run, whatever runs, if and only if no
      bridge operation is applied to that account under the token's key; it then stays frozen, with the balance it
      had. */
  lemma {:induction false} FrozenBalanceConstant(env: Env, s: Snapshot, ops: seq<Op>, id: Hash, a: Address)
    requires GoodDefinitions(s) && id in s.tokens.definitions && Frozen(s, id, a)
    requires forall op | op in ops :: !Unfreezes(op, id, a)
    ensures StillThroughout(env, s, ops, id, a) <==> NeverInto(env, s, ops, id, a)
    ensures var end := Run(env, s, ops);
            end.Some? && NeverInto(env, s, ops, id, a) ==> Frozen(end.value, id, a) && Still(s, end.value, id, a)
    decreases |ops|
  {
    hide TokenKey, GoodDefinitions, Apply, CanonicalKey, AppliedInto;
    if ops != [] && Apply(env, s, ops[0]).outcome.Done? {
      FrozenStep(env, s, ops[0], id, a);
      if !AppliedInto(env, s, ops[0], id, a) {
        DefinitionsStayGood(env, s, ops[0]);
        FrozenBalanceConstant(env, Apply(env, s, ops[0]).state, ops[1..], id, a);
      }
    }
  }

  /* ---------- runs: pauses ---------- */

  /** Supply and every balance of the token stand still from one state to the next. */
  ghost predicate AllStill(s: Snapshot, s': Snapshot, id: Hash) {
    && SameToken(s, s', id)
    && s'.tokens.definitions[id].totalSupply == s.tokens.definitions[id].totalSupply
    && forall a :: Still(s, s', id, a)
  }

  ghost predicate AllStillThroughout(env: Env, s: Snapshot, ops: seq<Op>, id: Hash)
    decreases |ops|
  {
    ops != [] && Apply(env, s, ops[0]).outcome.Done? ==>
      && AllStill(s, Apply(env, s, ops[0]).state, id)
      && AllStillThroughout(env, Apply(env, s, ops[0]).state, ops[1..], id)
  }

  /** No operation of the run is a bridge operation that is applied under the token's own key. */
  predicate NeverBridged(env: Env, s: Snapshot, ops: seq<Op>, id: Hash)
    decreases |ops|
  {
    ops != [] && Apply(env, s, ops[0]).outcome.Done? ==>
      && !(ops[0].Bridge? && AppliedInto(env, s, ops[0], id, ops[0].asset.address))
      && NeverBridged(env, Apply(env, s, ops[0]).state, ops[1..], id)
  }

  lemma PausedStep(env: Env, s: Snapshot, op: Op, id: Hash)
    requires GoodDefinitions(s) && Paused(s, id) && !Unpauses(op, id) && Apply(env, s, op).outcome.Done?
    ensures var s', bridged := Apply(env, s, op).state, op.Bridge? && AppliedInto(env, s, op, id, op.asset.address);
            && (AllStill(s, s', id) <==> !bridged)
            && (!bridged ==> Paused(s', id))
  {
    StepHolds(env, s, op, id, Address(""));
    if BridgesToken(s, op, id) {
      if Apply(env, s, op).outcome == Done(true) {
        BridgeMovesBalanceExactly(s, op.asset, id, op.asset.address);
      } else {
        Nonces.DuplicateChangesNothing(env, s, op);
      }
    }
  }

  /** Until it is unpaused, a paused token's supply and balances stand still throughout a run, whatever runs, if and
      only if no bridge operation is applied under the token's key; it then stays paused, with the supply and the
      balances it had. */
  lemma {:induction false} PausedTokenConstant(env: Env, s: Snapshot, ops: seq<Op>, id: Hash)
    requires GoodDefinitions(s) && Paused(s, id)
    requires forall op | op in ops :: !Unpauses(op, id)
    ensures AllStillThroughout(env, s, ops, id) <==> NeverBridged(env, s, ops, id)
    ensures var end := Run(env, s, ops);
            end.Some? && NeverBridged(env, s, ops, id) ==> Paused(end.value, id) && AllStill(s, end.value, id)
    decreases |ops|
  {
    hide TokenKey, GoodDefinitions, Apply, CanonicalKey, AppliedInto;
    if ops != [] && Apply(env, s, ops[0]).outcome.Done? {
      var s' := Apply(env, s, ops[0]).state;
      PausedStep(env, s, ops[0], id);
      if AllStill(s, s', id) {
        DefinitionsStayGood(env, s, ops[0]);
        PausedTokenConstant(env, s', ops[1..], id);
        var end := Run(env, s, ops);
        if end.Some? && NeverBridged(env, s, ops, id) {
          StillIsTransitive(s, s', end.value, id);
        }
      }
    }
  }

  lemma StillIsTransitive(s: Snapshot, t: Snapshot, u: Snapshot, id: Hash)
    requires AllStill(s, t, id) && AllStill(t, u, id)
    ensures AllStill(s, u, id)
  {
    hide TokenKey;
    forall a ensures Still(s, u, id, a) {
      assert Still(s, t, id, a) && Still(t, u, id, a);
    }
  }

  /* ---------- a mint into a hold ---------- */

  /** The identity under which the bridge interface reads a custom token with the symbol of an external asset. */
  function BridgedName(id: Hash): AssetId {
    AssetId("intertrain", "USDC", Some("token:" + id.hex), 6)
  }

  lemma BridgedNameOf(s: Snapshot, id: Hash)
    requires GoodDefinitions(s) && id in s.tokens.definitions && s.tokens.definitions[id].symbol == "USDC"
    ensures Parsed(BridgedName(id)) && CanonicalKey(BridgedName(id)) == TokenKey(s.tokens.definitions[id])
  {
    hide ParseAssetId;
    assert AsciiUpper("USDC") == "USDC";
    PrintedParses("intertrain", "USDC", "token:" + id.hex, 6);
    TokenKeyOf(s.tokens.definitions[id]);
    CustomKeyParts(id, "USDC");
  }

  /** The interface reads the identity, the mint is applied, and the balance of the frozen account grows under the
      freeze. */
  lemma FrozenBalanceGrows(s: Snapshot, id: Hash, a: Address, o: AssetOperation)
    requires GoodDefinitions(s) && id in s.tokens.definitions && s.tokens.definitions[id].symbol == "USDC"
    requires o.version == 1 && o.kind == BridgeMint && o.amount > 0 && o.assetId == BridgedName(id) && o.address == a
    requires o.operationId !in s.assets.processed && TokenBalance(s, id, a) + o.amount <= U128_MAX
    requires Frozen(s, id, a)
    ensures var step := ApplyAssetOperation(s, o);
            && Parsed(o.assetId) && step.outcome == Done(true)
            && Frozen(step.state, id, a) && SameToken(s, step.state, id)
            && TokenBalance(step.state, id, a) == TokenBalance(s, id, a) + o.amount
  {
    BridgedNameOf(s, id);
    BridgeWrites(s, o);
    hide CanonicalKey, TokenKey, Parsed, IsSepoliaUsdc, IsDevnetUsdc;
  }

  /** The same of a paused token: a balance grows under the pause, and the supply does not. */
  lemma PausedBalanceGrows(s: Snapshot, id: Hash, o: AssetOperation)
    requires GoodDefinitions(s) && Paused(s, id) && s.tokens.definitions[id].symbol == "USDC"
    requires o.version == 1 && o.kind == BridgeMint && o.amount > 0 && o.assetId == BridgedName(id)
    requires o.operationId !in s.assets.processed && TokenBalance(s, id, o.address) + o.amount <= U128_MAX
    ensures var step := ApplyAssetOperation(s, o);
            && Parsed(o.assetId) && step.outcome == Done(true)
            && Paused(step.state, id) && SameToken(s, step.state, id)
            && step.state.tokens.definitions[id].totalSupply == s.tokens.definitions[id].totalSupply
            && TokenBalance(step.state, id, o.address) == TokenBalance(s, id, o.address) + o.amount
  {
    BridgedNameOf(s, id);
    BridgeWrites(s, o);
    hide CanonicalKey, TokenKey, Parsed, IsSepoliaUsdc, IsDevnetUsdc;
  }
}
