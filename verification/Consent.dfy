/** Nobody else spends what an account has: balances and holdings fall, and tokens change, only on a signed request. */
module Consent {
  import opened Wrappers
  import opened Core
  import opened Ledger
  import opened Frames
  import opened Nonces
  import opened Effects
  import opened TokenLedger

  /* ---------- signatures ---------- */

  /** The operation was signed for this chain by a key of the address it names, and pays the minimum fee. Bridge and
      reserve operations and credits carry no signature. */
  predicate Signed(env: Env, s: Snapshot, op: Op) {
    match op
    case Transfer(tx) =>
      var u := tx.unsigned;
      env.txSigned(tx) && env.addressOf(u.publicKey) == u.from && u.chainId == s.chainId && u.fee >= s.feeMinimum
    case Token(o) =>
      var u := o.unsigned;
      env.tokenSigned(o) && env.addressOf(u.publicKey) == u.from && u.chainId == s.chainId && u.fee >= s.feeMinimum
    case Swap(o) =>
      var u := o.unsigned;
      env.swapSigned(o) && env.addressOf(u.publicKey) == u.from && u.chainId == s.chainId && u.fee >= s.feeMinimum
    case Program(o, _) => env.programSigned(o) && o.chainId == s.chainId && o.fee >= s.feeMinimum
    case _ => true
  }

  lemma TransferIsSigned(env: Env, s: Snapshot, tx: Transaction)
    requires ApplyTransaction(env, s, tx).outcome == Done(true)
    ensures Signed(env, s, Transfer(tx))
  {
    hide FaucetTransfer, WalletTransfer;
  }

  lemma TokenIsSigned(env: Env, s: Snapshot, o: TokenOperation, id: Hash)
    requires ApplyToken(env, s, o, id).outcome == Done(true)
    ensures Signed(env, s, Token(o))
  {
    hide TokenEffect, CheckTokenKind;
  }

  lemma SwapIsSigned(env: Env, s: Snapshot, o: MnaSwapOperation)
    requires ApplySwap(env, s, o).outcome == Done(true)
    ensures Signed(env, s, Op.Swap(o))
    ensures IsSupportedUsdc(o.unsigned.collateralAsset) && o.unsigned.amountUsdc == 2 * o.unsigned.amountMna > 0
  {
    hide SwapEffect, IsSupportedUsdc;
  }

  lemma ProgramIsSigned(env: Env, s: Snapshot, o: ProgramOperation, height: nat)
    requires ApplyProgram(env, s, o, height).outcome == Done(true)
    ensures Signed(env, s, Program(o, height))
  {
    hide SettledProgram;
  }

  /** Whatever is applied was signed by the account whose nonce it uses. */
  lemma AppliedIsSigned(env: Env, s: Snapshot, op: Op)
    requires Apply(env, s, op).outcome == Done(true)
    ensures Signed(env, s, op)
  {
    match op
    case Transfer(tx) => TransferIsSigned(env, s, tx);
    case Bridge(o) =>
    case Token(o) => TokenIsSigned(env, s, o, env.tokenOpId(o.unsigned));
    case Swap(o) => SwapIsSigned(env, s, o);
    case Reserve(o) =>
    case Program(o, height) => ProgramIsSigned(env, s, o, height);
    case Credit(a, amount) =>
  }

  /* ---------- balances and holdings ---------- */

  /** An applied operation that this account signed, with its next nonce. */
  predicate SignedBy(env: Env, s: Snapshot, op: Op, a: Address) {
    && Apply(env, s, op).outcome == Done(true) && Signed(env, s, op)
    && Signer(env, s.chainId, op) == Some(a) && NonceIn(op) == NonceOf(s, a)
  }

  predicate BurnsFrom(op: Op, a: Address, key: string) {
    op.Bridge? && op.asset.kind == BridgeBurn && op.asset.address == a && CanonicalKey(op.asset.assetId) == key
  }

  lemma NativeFallsForSigner(env: Env, s: Snapshot, op: Op, a: Address)
    requires NativeChange(env, s, op, a) < 0
    ensures Signer(env, s.chainId, op) == Some(a)
  {
    hide IsDevnet, IsSupportedSol, ProgramFee;
  }

  lemma HoldingFallsForSigner(env: Env, s: Snapshot, op: Op, a: Address, key: string)
    requires HoldingChange(env, s, op, a, key) < 0
    ensures Signer(env, s.chainId, op) == Some(a) || BurnsFrom(op, a, key)
  {
    hide CanonicalKey, TokenKeyOfOp;
  }

  /** Whatever the operation and its outcome: a native balance falls only if its owner signed for it, a holding only if
      its owner signed or the bridge burns it. */
  lemma NobodyElseSpends(env: Env, s: Snapshot, op: Op, a: Address, key: string)
    requires Metered(env)
    ensures var s' := Apply(env, s, op).state;
            && (NativeOf(s', a) < NativeOf(s, a) ==> SignedBy(env, s, op, a))
            && (AssetBalance(s', a, key) < AssetBalance(s, a, key) ==> SignedBy(env, s, op, a) || BurnsFrom(op, a, key))
  {
    hide Signed, CanonicalKey, NativeOf, AssetBalance, NativeChange, HoldingChange;
    var step := Apply(env, s, op);
    if step.outcome.Failed? {
      RejectedMovesNothing(env, s, op);
    } else if step.outcome == Done(false) {
      DuplicateChangesNothing(env, s, op);
    } else {
      hide Apply;
      AppliedMovesNative(env, s, op);
      AppliedMovesHoldings(env, s, op);
      AppliedIsSigned(env, s, op);
      StepCounts(env, s, op);
      if NativeChange(env, s, op, a) < 0 { NativeFallsForSigner(env, s, op, a); }
      if HoldingChange(env, s, op, a, key) < 0 { HoldingFallsForSigner(env, s, op, a, key); }
    }
  }

  /** Neither signs this account anything along the run nor does the bridge burn its holding, whatever the outcomes. */
  predicate NeverConsents(env: Env, s: Snapshot, ops: seq<Op>, a: Address, key: string)
    decreases |ops|
  {
    ops != [] ==>
      && !SignedBy(env, s, ops[0], a) && !BurnsFrom(ops[0], a, key)
      && NeverConsents(env, Apply(env, s, ops[0]).state, ops[1..], a, key)
  }

  /** The state after a list of operations, whatever their outcomes. */
  function Through(env: Env, s: Snapshot, ops: seq<Op>): Snapshot
    decreases |ops|
  {
    if ops == [] then s else Through(env, Apply(env, s, ops[0]).state, ops[1..])
  }

  /** Over any list of operations, rejected ones included, an account that consents to nothing loses nothing. */
  lemma {:induction false} NoConsentNoLoss(env: Env, s: Snapshot, ops: seq<Op>, a: Address, key: string)
    requires Metered(env) && NeverConsents(env, s, ops, a, key)
    ensures var end := Through(env, s, ops);
            NativeOf(end, a) >= NativeOf(s, a) && AssetBalance(end, a, key) >= AssetBalance(s, a, key)
    decreases |ops|
  {
    hide Apply, SignedBy, BurnsFrom, NativeOf, AssetBalance, Metered;
    if ops != [] {
      NobodyElseSpends(env, s, ops[0], a, key);
      NoConsentNoLoss(env, Apply(env, s, ops[0]).state, ops[1..], a, key);
    }
  }

  /* ---------- who may change a token ---------- */

  /** From one state to the next, everything about a token that changed was changed by someone entitled to. */
  ghost predicate Governed(env: Env, s: Snapshot, u: UnsignedTokenOperation, s': Snapshot, id: Hash)
    requires id in s.tokens.definitions
  {
    var d := s.tokens.definitions[id];
    && id in s'.tokens.definitions
    && var d' := s'.tokens.definitions[id];
    && d' == d.(totalSupply := d'.totalSupply, paused := d'.paused, metadataUri := d'.metadataUri,
                metadataHash := d'.metadataHash, mintAuthority := d'.mintAuthority, burnAuthority := d'.burnAuthority,
                freezeAuthority := d'.freezeAuthority)
    && (d'.totalSupply > d.totalSupply ==>
          u.kind == TokenMint && u.tokenId == id && d.mintAuthority == Some(u.from)
          && d'.totalSupply == d.totalSupply + u.amount)
    && (d'.totalSupply < d.totalSupply ==>
          u.kind == TokenBurn && u.tokenId == id && d'.totalSupply == d.totalSupply - u.amount)
    && (d'.(totalSupply := d.totalSupply) != d ==> d.creator == u.from && u.tokenId == id)
    && (d'.paused != d.paused ==> u.kind == if d'.paused then Pause else Unpause)
    && (d'.metadataUri != d.metadataUri || d'.metadataHash != d.metadataHash ==>
          u.kind == UpdateMetadata && d'.metadataUri == u.metadataUri && d'.metadataHash == u.metadataHash)
    && (d'.mintAuthority != d.mintAuthority || d'.burnAuthority != d.burnAuthority
        || d'.freezeAuthority != d.freezeAuthority ==>
          u.kind == SetAuthorities && d'.mintAuthority == u.mintAuthority && d'.burnAuthority == u.burnAuthority
          && d'.freezeAuthority == u.freezeAuthority)
  }

  ghost predicate FrozenByAuthority(s: Snapshot, u: UnsignedTokenOperation, s': Snapshot) {
    forall id, x :: ((id, x) in s'.tokens.frozen) != ((id, x) in s.tokens.frozen) ==>
      && id in s.tokens.definitions && s.tokens.definitions[id].freezeAuthority == Some(u.from)
      && u.tokenId == id && u.to == Some(x)
      && u.kind == if (id, x) in s'.tokens.frozen then Freeze else Unfreeze
  }

  lemma ActionIsGoverned(env: Env, s: Snapshot, u: UnsignedTokenOperation, opId: Hash, id: Hash)
    requires GoodDefinitions(s) && id in s.tokens.definitions && TokenAction(env, s, u, opId).Ok?
    ensures Governed(env, s, u, TokenAction(env, s, u, opId).value, id)
  {
    hide TokenKey, AssetBalance, Governed, CreateToken, TransferToken, MintToken, BurnToken, FreezeToken, GovernToken,
         GoodDefinitions;
    if u.kind == Create {
      CreateIsGoverned(env, s, u, env.tokenIdOf(opId), id);
    } else {
      NamedById(s, u.tokenId);
      MovesAreGoverned(env, s, u, s.tokens.definitions[u.tokenId], id);
      SupplyIsGoverned(env, s, u, s.tokens.definitions[u.tokenId], id);
      if u.kind == SetAuthorities || u.kind == Pause || u.kind == Unpause || u.kind == UpdateMetadata {
        RestIsGoverned(env, s, u, s.tokens.definitions[u.tokenId], id);
      }
    }
  }

  lemma NamedById(s: Snapshot, id: Hash)
    requires GoodDefinitions(s) && id in s.tokens.definitions
    ensures s.tokens.definitions[id].tokenId == id
  {
    assert GoodDefinition(id, s.tokens.definitions[id]);
  }

  lemma CreateIsGoverned(env: Env, s: Snapshot, u: UnsignedTokenOperation, newId: Hash, id: Hash)
    requires id in s.tokens.definitions && CreateToken(s, u, newId).Ok?
    ensures Governed(env, s, u, CreateToken(s, u, newId).value, id)
  {
    hide TokenKey, AssetBalance;
  }

  lemma MovesAreGoverned(env: Env, s: Snapshot, u: UnsignedTokenOperation, d: TokenDefinition, id: Hash)
    requires id in s.tokens.definitions
    ensures TransferToken(s, u, d).Ok? ==> Governed(env, s, u, TransferToken(s, u, d).value, id)
    ensures FreezeToken(s, u, d).Ok? ==> Governed(env, s, u, FreezeToken(s, u, d).value, id)
  {
    hide TokenKey, AssetBalance;
  }

  lemma SupplyIsGoverned(env: Env, s: Snapshot, u: UnsignedTokenOperation, d: TokenDefinition, id: Hash)
    requires id in s.tokens.definitions && u.tokenId in s.tokens.definitions && s.tokens.definitions[u.tokenId] == d
    requires d.tokenId == u.tokenId
    ensures u.kind == TokenMint && MintToken(s, u, d).Ok? ==> Governed(env, s, u, MintToken(s, u, d).value, id)
    ensures u.kind == TokenBurn && BurnToken(s, u, d).Ok? ==> Governed(env, s, u, BurnToken(s, u, d).value, id)
  {
    hide TokenKey, AssetBalance;
  }

  lemma RestIsGoverned(env: Env, s: Snapshot, u: UnsignedTokenOperation, d: TokenDefinition, id: Hash)
    requires id in s.tokens.definitions && u.tokenId in s.tokens.definitions && s.tokens.definitions[u.tokenId] == d
    requires d.tokenId == u.tokenId
    requires u.kind == SetAuthorities || u.kind == Pause || u.kind == Unpause || u.kind == UpdateMetadata
    ensures GovernToken(s, u, d).Ok? ==> Governed(env, s, u, GovernToken(s, u, d).value, id)
  {
  }

  lemma ActionFreezesByAuthority(env: Env, s: Snapshot, u: UnsignedTokenOperation, opId: Hash)
    requires GoodDefinitions(s) && TokenAction(env, s, u, opId).Ok?
    ensures FrozenByAuthority(s, u, TokenAction(env, s, u, opId).value)
  {
    hide TokenKey, AssetBalance;
    if u.kind != Create {
      assert GoodDefinition(u.tokenId, s.tokens.definitions[u.tokenId]);
    }
  }

  lemma GovernedThrough(env: Env, s: Snapshot, s1: Snapshot, u: UnsignedTokenOperation, s2: Snapshot, s3: Snapshot,
      id: Hash)
    requires id in s.tokens.definitions && s1.tokens == s.tokens && Governed(env, s1, u, s2, id)
    requires s3.tokens.definitions == s2.tokens.definitions && s3.tokens.frozen == s2.tokens.frozen
    requires FrozenByAuthority(s1, u, s2)
    ensures Governed(env, s, u, s3, id) && FrozenByAuthority(s, u, s3)
  {
  }

  /** Whatever the operation and its outcome, a token that exists goes on existing, and what changed about it was changed
      by an applied token operation that names it, signed by the account entitled to: supply grows for the mint authority
      and shrinks with a holder's own burn, freezes are the freeze authority's, and the rest is the creator's. */
  lemma TokensAreGoverned(env: Env, s: Snapshot, op: Op, id: Hash)
    requires GoodDefinitions(s) && id in s.tokens.definitions
    ensures var step := Apply(env, s, op);
            if op.Token? && step.outcome == Done(true) then
              Signed(env, s, op) && Governed(env, s, op.token.unsigned, step.state, id)
              && FrozenByAuthority(s, op.token.unsigned, step.state)
            else step.state.tokens == s.tokens
  {
    match op
    case Transfer(tx) => TransferWrites(env, s, tx);
    case Bridge(o) => BridgeWrites(s, o);
    case Token(o) => TokenStepGoverned(env, s, o, id);
    case Swap(o) => SwapWrites(env, s, o);
    case Reserve(o) => ReserveWrites(env, s, o);
    case Program(o, height) => ProgramWrites(env, s, o, height);
    case Credit(a, amount) =>
  }

  lemma TokenStepGoverned(env: Env, s: Snapshot, o: TokenOperation, id: Hash)
    requires GoodDefinitions(s) && id in s.tokens.definitions
    ensures var step := Apply(env, s, Token(o));
            if step.outcome == Done(true) then
              Signed(env, s, Token(o)) && Governed(env, s, o.unsigned, step.state, id)
              && FrozenByAuthority(s, o.unsigned, step.state)
            else step.state.tokens == s.tokens
  {
    hide Governed, FrozenByAuthority, TokenAction, ValidateToken, Signed;
    var step := Apply(env, s, Token(o));
    if step.outcome == Done(true) {
      TokenIsSigned(env, s, o, env.tokenOpId(o.unsigned));
      var paid := ChargeTokenFee(s, o.unsigned).value;
      assert GoodDefinitions(paid);
      ActionIsGoverned(env, paid, o.unsigned, env.tokenOpId(o.unsigned), id);
      ActionFreezesByAuthority(env, paid, o.unsigned, env.tokenOpId(o.unsigned));
      GovernedThrough(env, s, paid, o.unsigned, TokenAction(env, paid, o.unsigned, env.tokenOpId(o.unsigned)).value,
        step.state, id);
    }
  }

  /** A new token is its creator's: it appears under its own identity, with the terms and the supply that were signed. */
  lemma CreatedAsSigned(env: Env, s: Snapshot, o: TokenOperation)
    requires o.unsigned.kind == Create && Apply(env, s, Token(o)).outcome == Done(true)
    ensures var u, s' := o.unsigned, Apply(env, s, Token(o)).state;
            var id := env.tokenIdOf(env.tokenOpId(u));
            && id !in s.tokens.definitions && id in s'.tokens.definitions
            && s'.tokens.definitions == s.tokens.definitions[id := s'.tokens.definitions[id]]
            && var d := s'.tokens.definitions[id];
               && d.tokenId == id && d.creator == u.from && d.symbol == u.symbol && d.decimals == u.decimals
               && d.totalSupply == u.amount && d.maxSupply == u.maxSupply && !d.paused
               && (d.maxSupply.Some? ==> d.totalSupply <= d.maxSupply.value)
               && d.mintAuthority == u.mintAuthority && d.burnAuthority == u.burnAuthority
               && d.freezeAuthority == u.freezeAuthority
  {
    hide TokenKey, AssetBalance;
    CheckedCreate(env, s, o);
    hide ValidateToken;
  }

  lemma CheckedCreate(env: Env, s: Snapshot, o: TokenOperation)
    requires ValidateToken(env, s, o).Ok? && o.unsigned.kind == Create
    ensures !BadCreate(o.unsigned)
  {
  }

  /** What an applied order about a token has done. */
  predicate Obeyed(u: UnsignedTokenOperation, d: TokenDefinition, d': TokenDefinition, frozen: set<(Hash, Address)>) {
    && (u.kind == TokenMint ==> d'.totalSupply == d.totalSupply + u.amount)
    && (u.kind == TokenBurn ==> d'.totalSupply == d.totalSupply - u.amount)
    && (u.kind == Freeze ==> u.to.Some? && (u.tokenId, u.to.value) in frozen)
    && (u.kind == Unfreeze ==> u.to.Some? && (u.tokenId, u.to.value) !in frozen)
    && (u.kind == Pause ==> d'.paused)
    && (u.kind == Unpause ==> !d'.paused)
    && (u.kind == UpdateMetadata ==> d'.metadataUri == u.metadataUri && d'.metadataHash == u.metadataHash)
    && (u.kind == SetAuthorities ==>
          d'.mintAuthority == u.mintAuthority && d'.burnAuthority == u.burnAuthority
          && d'.freezeAuthority == u.freezeAuthority)
  }

  lemma ActionObeys(env: Env, s: Snapshot, u: UnsignedTokenOperation, opId: Hash)
    requires GoodDefinitions(s) && u.kind != Create && TokenAction(env, s, u, opId).Ok?
    ensures var s' := TokenAction(env, s, u, opId).value;
            && u.tokenId in s.tokens.definitions && u.tokenId in s'.tokens.definitions
            && Obeyed(u, s.tokens.definitions[u.tokenId], s'.tokens.definitions[u.tokenId], s'.tokens.frozen)
  {
    hide TokenKey, AssetBalance;
    assert GoodDefinition(u.tokenId, s.tokens.definitions[u.tokenId]);
  }

  /** An applied order has taken effect on the token it names, and is on record under its identity. */
  lemma OrdersTakeEffect(env: Env, s: Snapshot, o: TokenOperation)
    requires GoodDefinitions(s) && Apply(env, s, Token(o)).outcome == Done(true)
    ensures var u, s' := o.unsigned, Apply(env, s, Token(o)).state;
            && s'.tokens.records == s.tokens.records[env.tokenOpId(u) := o]
            && s'.tokens.processed == s.tokens.processed + {env.tokenOpId(u)}
            && (u.kind != Create ==>
                  && u.tokenId in s.tokens.definitions && u.tokenId in s'.tokens.definitions
                  && Obeyed(u, s.tokens.definitions[u.tokenId], s'.tokens.definitions[u.tokenId], s'.tokens.frozen))
  {
    hide Obeyed, TokenAction, ValidateToken;
    var paid := ChargeTokenFee(s, o.unsigned).value;
    assert GoodDefinitions(paid);
    TokenActionWrites(env, paid, o.unsigned, env.tokenOpId(o.unsigned));
    if o.unsigned.kind != Create {
      ActionObeys(env, paid, o.unsigned, env.tokenOpId(o.unsigned));
    }
  }
}
