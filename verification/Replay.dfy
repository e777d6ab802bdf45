/** Building a block keeps what the ledger accepts; importing it applies what was kept and insists on every
    operation. When do the two end in the same state? */
module Replay {
  import opened Wrappers
  import opened Core
  import opened Ledger
  import opened Frames
  import opened Sums
  import opened NativeAccounting

  /* ---------- what producer and importer do with a list of operations ---------- */

  datatype Sifted<T> = Sifted(state: Snapshot, kept: seq<T>)

  /** The producer: a rejected operation is skipped, with whatever it wrote; `Ok(false)` counts as accepted. */
  function Sift<T>(env: Env, s: Snapshot, items: seq<T>, op: T -> Op): Sifted<T>
    decreases |items|
  {
    if items == [] then Sifted(s, [])
    else
      var step := Apply(env, s, op(items[0]));
      var rest := Sift(env, step.state, items[1..], op);
      if step.outcome.Done? then Sifted(rest.state, [items[0]] + rest.kept) else rest
  }

  /** Why an importer refuses an operation: the ledger rejects it, or reports a duplicate. */
  datatype Refusal = Rejected(error: StateError) | Duplicate

  /** The importer: every operation has to be applied. */
  function Replayed<T>(env: Env, s: Snapshot, items: seq<T>, op: T -> Op): Result<Snapshot, Refusal>
    decreases |items|
  {
    if items == [] then Ok(s)
    else
      var step := Apply(env, s, op(items[0]));
      if step.outcome.Failed? then Err(Rejected(step.outcome.error))
      else if !step.outcome.applied then Err(Duplicate)
      else Replayed(env, step.state, items[1..], op)
  }

  /** The checks of a bridge operation before its identity and its record are written. */
  predicate BridgeChecked(s: Snapshot, o: AssetOperation) {
    o.version == 1 && o.amount != 0 && o.assetId.namespace != "worldstreet" && o.assetId.contract.Some?
    && o.operationId !in s.assets.processed
  }

  /** The checks after which an operation starts writing to the state it was given, rather than to a clone. */
  predicate PastFirstWrite(env: Env, s: Snapshot, op: Op) {
    match op
    case Transfer(tx) =>
      ValidateTransaction(env, s, tx).Ok? && FromFaucet(env, s, tx.unsigned)
      && AccountOf(s, tx.unsigned.to).balance + tx.unsigned.amount <= U128_MAX
    case Bridge(o) => BridgeChecked(s, o)
    case Swap(o) => ValidateSwap(env, s, o).Ok? && env.swapId(o.unsigned) !in s.mna.processedSwaps
    case Reserve(o) => ValidateReserve(env, s, o).Ok? && env.reserveId(o) !in s.mna.processedReserves
    case _ => false
  }

  /** Every operation is applied, or is rejected before its first write; none is reported as a duplicate. */
  predicate Clean(env: Env, s: Snapshot, ops: seq<Op>)
    decreases |ops|
  {
    ops == [] ||
    var step := Apply(env, s, ops[0]);
    && (step.outcome == Done(true) || (step.outcome.Failed? && !PastFirstWrite(env, s, ops[0])))
    && Clean(env, step.state, ops[1..])
  }

  function Self(op: Op): Op {
    op
  }

  /* ---------- replay identities ---------- */

  /** Two operations of one family that share the identity the ledger remembers. */
  predicate SameIdentity(env: Env, x: Op, y: Op) {
    || (x.Bridge? && y.Bridge? && x.asset.operationId == y.asset.operationId)
    || (x.Token? && y.Token? && env.tokenOpId(x.token.unsigned) == env.tokenOpId(y.token.unsigned))
    || (x.Swap? && y.Swap? && env.swapId(x.swap.unsigned) == env.swapId(y.swap.unsigned))
    || (x.Reserve? && y.Reserve? && env.reserveId(x.reserve) == env.reserveId(y.reserve))
    || (x.Program? && y.Program? && env.programOpId(x.program) == env.programOpId(y.program))
  }

  predicate DistinctIdentities(env: Env, ops: seq<Op>) {
    forall i, j :: 0 <= i < j < |ops| ==> !SameIdentity(env, ops[i], ops[j])
  }

  predicate Seen(env: Env, s: Snapshot, op: Op) {
    match op
    case Bridge(o) => o.operationId in s.assets.processed
    case Token(o) => env.tokenOpId(o.unsigned) in s.tokens.processed
    case Swap(o) => env.swapId(o.unsigned) in s.mna.processedSwaps
    case Reserve(o) => env.reserveId(o) in s.mna.processedReserves
    case Program(o, _) => env.programOpId(o) in s.programs.receipts
    case _ => false
  }

  lemma SwapIdentity(env: Env, s: Snapshot, op: MnaSwapOperation)
    ensures ValidateSwap(env, s, op).Ok? ==> ValidateSwap(env, s, op).value == env.swapId(op.unsigned)
  {
    hide IsSupportedUsdc;
  }

  lemma ReserveIdentity(env: Env, s: Snapshot, op: MnaReserveOperation)
    ensures ValidateReserve(env, s, op).Ok? ==> ValidateReserve(env, s, op).value == env.reserveId(op)
  {
    hide IsSupportedUsdc, IsSupportedSol;
  }

  lemma TransfersAreApplied(env: Env, s: Snapshot, tx: Transaction)
    ensures ApplyTransaction(env, s, tx).outcome != Done(false)
  {
    hide ValidateTransaction;
  }

  lemma SeenIsNotApplied(env: Env, s: Snapshot, op: Op)
    ensures Seen(env, s, op) ==> Apply(env, s, op).outcome != Done(true)
    ensures Apply(env, s, op).outcome == Done(false) ==> Seen(env, s, op) && Apply(env, s, op).state == s
  {
    hide TokenEffect, ProgramEffect, SwapEffect, ReserveEffect, ValidateSwap, ValidateReserve, ValidateToken,
         ApplyTransaction, CreditDevnet;
    match op
    case Transfer(tx) => TransfersAreApplied(env, s, tx);
    case Bridge(o) =>
    case Token(o) =>
    case Swap(o) => SwapIdentity(env, s, o);
    case Reserve(o) => ReserveIdentity(env, s, o);
    case Program(o, height) =>
    case Credit(a, amount) =>
  }

  /* what each family adds to the sets of remembered identities */

  lemma BridgeMarks(s: Snapshot, o: AssetOperation)
    ensures var s' := ApplyAssetOperation(s, o).state;
            s.assets.processed <= s'.assets.processed <= s.assets.processed + {o.operationId}
  {
    hide IsSupportedUsdc, CanonicalKey;
  }

  lemma TokenMarks(env: Env, s: Snapshot, o: TokenOperation, id: Hash)
    ensures var s' := ApplyToken(env, s, o, id).state;
            s.tokens.processed <= s'.tokens.processed <= s.tokens.processed + {id}
  {
    var paid := ChargeTokenFee(s, o.unsigned);
    if paid.Ok? {
      TokenActionWrites(env, paid.value, o.unsigned, id);
      hide TokenAction, ValidateToken;
    }
  }

  lemma SwapMarks(env: Env, s: Snapshot, o: MnaSwapOperation)
    ensures var s' := ApplySwap(env, s, o).state;
            s.mna.processedSwaps <= s'.mna.processedSwaps <= s.mna.processedSwaps + {env.swapId(o.unsigned)}
  {
    SwapIdentity(env, s, o);
    var id := env.swapId(o.unsigned);
    SwapEffectWrites(s.(mna := s.mna.(processedSwaps := s.mna.processedSwaps + {id})), o, id);
    hide SwapEffect, ValidateSwap;
  }

  lemma ReserveMarks(env: Env, s: Snapshot, o: MnaReserveOperation)
    ensures var s' := ApplyReserve(env, s, o).state;
            s.mna.processedReserves <= s'.mna.processedReserves <= s.mna.processedReserves + {env.reserveId(o)}
  {
    ReserveIdentity(env, s, o);
    hide ValidateReserve, IsSupportedUsdc, IsSupportedSol;
  }

  lemma ProgramMarks(env: Env, s: Snapshot, o: ProgramOperation, height: nat)
    ensures var s' := ApplyProgram(env, s, o, height).state;
            s.programs.receipts.Keys <= s'.programs.receipts.Keys <= s.programs.receipts.Keys + {env.programOpId(o)}
  {
    var owner := env.addressOf(o.publicKey);
    ProgramActionWrites(env, SetAccount(s, owner, AccountOf(s, owner)), o, owner, height);
    hide ProgramAction;
  }

  /** One step marks its own identity at most, and forgets none. */
  lemma StepMarks(env: Env, s: Snapshot, x: Op, op: Op)
    ensures var s' := Apply(env, s, x).state;
            && (Seen(env, s, op) ==> Seen(env, s', op))
            && (Seen(env, s', op) ==> Seen(env, s, op) || SameIdentity(env, x, op))
  {
    hide ApplyTransaction, ApplyAssetOperation, ApplyToken, ApplySwap, ApplyReserve, ApplyProgram;
    match x
    case Transfer(tx) => TransferWrites(env, s, tx);
    case Bridge(o) => BridgeWrites(s, o); BridgeMarks(s, o);
    case Token(o) =>
      TokenWrites(env, s, o, env.tokenOpId(o.unsigned));
      TokenMarks(env, s, o, env.tokenOpId(o.unsigned));
    case Swap(o) => SwapWrites(env, s, o); SwapMarks(env, s, o);
    case Reserve(o) => ReserveWrites(env, s, o); ReserveMarks(env, s, o);
    case Program(o, height) => ProgramWrites(env, s, o, height); ProgramMarks(env, s, o, height);
    case Credit(a, amount) =>
  }

  /* ---------- which rejections have already written ---------- */

  lemma BridgeRejected(s: Snapshot, o: AssetOperation)
    ensures var step := ApplyAssetOperation(s, o);
            step.outcome.Failed? ==>
              if BridgeChecked(s, o) then o.operationId in step.state.assets.processed else step.state == s
  {
    hide IsSupportedUsdc, CanonicalKey;
  }

  lemma TransferRejected(env: Env, s: Snapshot, tx: Transaction)
    ensures var step := ApplyTransaction(env, s, tx);
            step.outcome.Failed? ==> (step.state != s <==> PastFirstWrite(env, s, Transfer(tx)))
  {
    var u := tx.unsigned;
    if ValidateTransaction(env, s, tx).Ok? && FromFaucet(env, s, u) {
      assert AccountOf(s, u.to).balance + u.amount <= U128_MAX ==>
             AccountOf(FaucetTransfer(s, u).state, u.to).balance > AccountOf(s, u.to).balance;
    }
  }

  /** A rejected operation has changed the state exactly when it got past the checks before its first write. */
  lemma RejectedWrites(env: Env, s: Snapshot, op: Op)
    requires Apply(env, s, op).outcome.Failed?
    ensures Apply(env, s, op).state != s <==> PastFirstWrite(env, s, op)
  {
    hide TokenEffect, ProgramEffect, SwapEffect, ReserveEffect, ValidateSwap, ValidateReserve, ValidateToken,
         ApplyTransaction, ApplyAssetOperation, CreditDevnet;
    match op
    case Transfer(tx) => TransferRejected(env, s, tx);
    case Bridge(o) => BridgeRejected(s, o);
    case Token(o) =>
    case Swap(o) => SwapIdentity(env, s, o);
    case Reserve(o) => ReserveIdentity(env, s, o);
    case Program(o, height) =>
    case Credit(a, amount) =>
  }

  /* ---------- a measure that every applied operation moves by an amount of its own ---------- */

  /** Native supply plus the number of remembered identities of the families that can write and then fail. */
  ghost function Trace(s: Snapshot): int {
    Supply(s) + |s.assets.processed| + |s.mna.processedSwaps| + |s.mna.processedReserves|
  }

  /** What the operation adds to the trace when it is applied, whatever the state. */
  function Footprint(env: Env, chainId: string, op: Op): int {
    match op
    case Transfer(_) => Issuance(env, chainId, op)
    case Credit(_, _) => Issuance(env, chainId, op)
    case Bridge(_) => 1
    case Swap(o) =>
      if o.unsigned.kind == MintMna then 1 + o.unsigned.amountMna - o.unsigned.fee
      else 1 - WrappingAdd(o.unsigned.amountMna, o.unsigned.fee)
    case Reserve(o) =>
      if o.kind == VerifyDeposit && IsSupportedSol(o.collateralAsset) then 1 + o.amountMna else 1
    case _ => 0
  }

  /** Applied: exactly the footprint. Duplicate: nothing. Rejected: nothing, unless it wrote first; then more. */
  ghost predicate Traced(s: Snapshot, step: Step, footprint: int) {
    && step.state.chainId == s.chainId
    && (step.outcome == Done(true) ==> Trace(step.state) == Trace(s) + footprint)
    && (step.outcome == Done(false) ==> step.state == s)
    && (step.outcome.Failed? && step.state != s ==> Trace(step.state) > Trace(s))
  }

  lemma TransferTraced(env: Env, s: Snapshot, tx: Transaction)
    ensures Traced(s, ApplyTransaction(env, s, tx), Footprint(env, s.chainId, Transfer(tx)))
  {
    TransferWrites(env, s, tx);
    TransferAccounting(env, s, tx);
    TransfersAreApplied(env, s, tx);
    var u := tx.unsigned;
    if ValidateTransaction(env, s, tx).Ok? && FromFaucet(env, s, u) {
      var receiver := AccountOf(s, u.to);
      if receiver.balance + u.amount <= U128_MAX {
        AccountMoves(s, u.to, Account(receiver.balance + u.amount, receiver.nonce));
      }
    }
  }

  lemma BridgeTraced(s: Snapshot, o: AssetOperation)
    ensures Traced(s, ApplyAssetOperation(s, o), 1)
  {
    hide IsSupportedUsdc, CanonicalKey;
    BridgeWrites(s, o);
  }

  lemma TokenTraced(env: Env, s: Snapshot, o: TokenOperation, id: Hash)
    ensures Traced(s, ApplyToken(env, s, o, id), 0)
  {
    TokenWrites(env, s, o, id);
    TokenAccounting(env, s, o, id);
    hide TokenEffect, ValidateToken, Supply;
  }

  lemma SwapTraced(env: Env, s: Snapshot, o: MnaSwapOperation)
    ensures Traced(s, ApplySwap(env, s, o), Footprint(env, s.chainId, Op.Swap(o)))
  {
    hide ValidateSwap, WrappingAdd;
    SwapWrites(env, s, o);
    SwapIdentity(env, s, o);
    var id := env.swapId(o.unsigned);
    var marked := s.(mna := s.mna.(processedSwaps := s.mna.processedSwaps + {id}));
    MintMovesSupply(marked, o, id);
    RedeemMovesSupply(marked, o, id);
    SwapEffectWrites(marked, o, id);
    assert Supply(marked) == Supply(s);
    hide Supply, MintEffect, RedeemEffect;
  }

  lemma ReserveEffectMovesSupply(s: Snapshot, o: MnaReserveOperation, id: Hash)
    ensures var r := ReserveEffect(s, o, id);
            r.Ok? ==>
              Supply(r.value)
              == Supply(s) + (if o.kind == VerifyDeposit && IsSupportedSol(o.collateralAsset) then o.amountMna else 0)
  {
    hide IsSupportedSol, Total;
    DepositMovesSupply(s, o);
    assert ReleaseEffect(s, o).Ok? ==> ReleaseEffect(s, o).value.native == s.native;
    hide DepositEffect, ReleaseEffect;
  }

  lemma ReserveTraced(env: Env, s: Snapshot, o: MnaReserveOperation)
    ensures Traced(s, ApplyReserve(env, s, o), Footprint(env, s.chainId, Op.Reserve(o)))
  {
    hide ValidateReserve, IsSupportedSol, Total;
    ReserveWrites(env, s, o);
    ReserveIdentity(env, s, o);
    ReserveMarks(env, s, o);
    var marked := s.(mna := s.mna.(processedReserves := s.mna.processedReserves + {env.reserveId(o)}));
    ReserveEffectMovesSupply(marked, o, env.reserveId(o));
    ReserveEffectWrites(marked, o, env.reserveId(o));
    assert Supply(marked) == Supply(s);
    hide ReserveEffect, Supply;
  }

  lemma ReserveEffectWrites(s: Snapshot, o: MnaReserveOperation, id: Hash)
    ensures var r := ReserveEffect(s, o, id);
            r.Ok? ==> r.value.chainId == s.chainId && r.value.assets == s.assets
                      && r.value.mna.processedSwaps == s.mna.processedSwaps
                        && r.value.mna.processedReserves == s.mna.processedReserves
  {
    hide IsSupportedSol;
  }

  lemma DepositMovesSupply(s: Snapshot, o: MnaReserveOperation)
    ensures var r := DepositEffect(s, o);
            r.Ok? ==> Supply(r.value) == Supply(s) + (if IsSupportedSol(o.collateralAsset) then o.amountMna else 0)
  {
    hide IsSupportedSol;
    DepositSupply(s, o);
  }

  lemma ProgramTraced(env: Env, s: Snapshot, o: ProgramOperation, height: nat)
    requires Metered(env)
    ensures Traced(s, ApplyProgram(env, s, o, height), 0)
  {
    ProgramWrites(env, s, o, height);
    ProgramAccounting(env, s, o, height);
    hide ProgramEffect, Supply;
  }

  lemma StepTraced(env: Env, s: Snapshot, op: Op)
    requires Metered(env)
    ensures Traced(s, Apply(env, s, op), Footprint(env, s.chainId, op))
  {
    hide ApplyTransaction, ApplyAssetOperation, ApplyToken, ApplySwap, ApplyReserve, ApplyProgram;
    match op
    case Transfer(tx) => TransferTraced(env, s, tx);
    case Bridge(o) => BridgeTraced(s, o);
    case Token(o) => TokenTraced(env, s, o, env.tokenOpId(o.unsigned));
    case Swap(o) => SwapTraced(env, s, o);
    case Reserve(o) => ReserveTraced(env, s, o);
    case Program(o, height) => ProgramTraced(env, s, o, height);
    case Credit(a, amount) => CreditAccounting(s, a, amount);
  }

  /* ---------- the equivalence ---------- */

  /** On a clean list the importer reaches the producer's state. */
  lemma {:induction false} CleanReplays(env: Env, s: Snapshot, ops: seq<Op>)
    requires Clean(env, s, ops)
    ensures var r := Sift(env, s, ops, Self); Replayed(env, s, r.kept, Self) == Ok(r.state)
    decreases |ops|
  {
    hide Apply, PastFirstWrite;
    if ops != [] {
      var step := Apply(env, s, ops[0]);
      if step.outcome.Failed? {
        RejectedWrites(env, s, ops[0]);
      }
      CleanReplays(env, step.state, ops[1..]);
      var rest := Sift(env, step.state, ops[1..], Self);
      assert ([ops[0]] + rest.kept)[1..] == rest.kept;
    }
  }

  /** From states that remember the same pending identities: if the replay goes through, the producer's trace
      moved at least as much, and as much only if the list was clean. */
  lemma {:induction false} ReplayBounds(env: Env, p: Snapshot, r: Snapshot, ops: seq<Op>)
    requires Metered(env) && DistinctIdentities(env, ops) && p.chainId == r.chainId
    requires forall op | op in ops :: Seen(env, p, op) ==> Seen(env, r, op)
    requires Replayed(env, r, Sift(env, p, ops, Self).kept, Self).Ok?
    ensures var end := Sift(env, p, ops, Self).state;
            var replay := Replayed(env, r, Sift(env, p, ops, Self).kept, Self).value;
            && Trace(replay) - Trace(r) <= Trace(end) - Trace(p)
            && (Trace(replay) - Trace(r) == Trace(end) - Trace(p) ==> Clean(env, p, ops))
    decreases |ops|
  {
    hide Apply, Trace, Seen, SameIdentity, PastFirstWrite;
    if ops != [] {
      var op, rest := ops[0], ops[1..];
      var p', r' := Apply(env, p, op), Apply(env, r, op);
      StepTraced(env, p, op);
      StepTraced(env, r, op);
      SeenIsNotApplied(env, p, op);
      SeenIsNotApplied(env, r, op);
      var kept := Sift(env, p'.state, rest, Self).kept;
      assert ([op] + kept)[1..] == kept;
      forall x | x in rest && Seen(env, p'.state, x) ensures Seen(env, r, x) && Seen(env, r'.state, x) {
        StepMarks(env, p, op, x);
        StepMarks(env, r, op, x);
      }
      if p'.outcome.Done? {
        ReplayBounds(env, p'.state, r'.state, rest);
      } else {
        RejectedWrites(env, p, op);
        ReplayBounds(env, p'.state, r, rest);
      }
    }
  }

  /** Replaying what the producer kept gives exactly the producer's state if and only if every rejected operation
      failed before its first write and none was accepted as a duplicate. */
  lemma ReplayIsExact(env: Env, s: Snapshot, ops: seq<Op>)
    requires Metered(env) && DistinctIdentities(env, ops)
    ensures var r := Sift(env, s, ops, Self); Replayed(env, s, r.kept, Self) == Ok(r.state) <==> Clean(env, s, ops)
  {
    var r := Sift(env, s, ops, Self);
    if Replayed(env, s, r.kept, Self) == Ok(r.state) {
      ReplayBounds(env, s, s, ops);
    }
    if Clean(env, s, ops) {
      CleanReplays(env, s, ops);
    }
  }

  /** On a fresh chain a single burn of something nobody holds is enough: the importer of what was kept does not reach
      the producer's state. */
  lemma RejectedBurnIsNotReplayed(env: Env, chainId: string, feeMinimum: u128, accounts: map<Address, Account>,
      o: AssetOperation)
    requires o.version == 1 && o.kind == BridgeBurn && o.amount > 0
    requires o.assetId.namespace != "worldstreet" && o.assetId.contract.Some?
    ensures var s := GenesisState(chainId, feeMinimum, accounts);
            var r := Sift(env, s, [Bridge(o)], Self);
            && DistinctIdentities(env, [Bridge(o)]) && !Clean(env, s, [Bridge(o)])
            && r.kept == [] && Replayed(env, s, r.kept, Self) == Ok(s) && r.state != s
  {
    hide CanonicalKey, IsSupportedUsdc;
    var s := GenesisState(chainId, feeMinimum, accounts);
    assert ApplyAssetOperation(s, o).outcome.Failed?;
    RejectedWrites(env, s, Bridge(o));
    assert [Bridge(o)][1..] == [];
    assert Sift(env, s, [Bridge(o)], Self) == Sift(env, Apply(env, s, Bridge(o)).state, [], Self);
  }
}
