/** Signed operations take effect exactly once. */
module Nonces {
  import opened Wrappers
  import opened Core
  import opened Ledger
  import opened Frames

  function NonceOf(s: Snapshot, a: Address): u64 {
    AccountOf(s, a).nonce
  }

  /** Who signs an operation with a nonce. Faucet transfers carry one that the ledger does not count. */
  function Signer(env: Env, chainId: string, op: Op): Option<Address> {
    match op
    case Transfer(tx) =>
      if IsDevnet(chainId) && tx.unsigned.publicKey == env.faucetKey then None else Some(tx.unsigned.from)
    case Token(o) => Some(o.unsigned.from)
    case Swap(o) => Some(o.unsigned.from)
    case Program(o, _) => Some(env.addressOf(o.publicKey))
    case _ => None
  }

  function NonceIn(op: Op): u64 {
    match op
    case Transfer(tx) => tx.unsigned.nonce
    case Token(o) => o.unsigned.nonce
    case Swap(o) => o.unsigned.nonce
    case Program(o, _) => o.nonce
    case _ => 0
  }

  /** What one applied operation does to every nonce. */
  ghost predicate CountsOnce(s: Snapshot, s': Snapshot, signer: Option<Address>, nonce: u64) {
    && s'.chainId == s.chainId
    && (signer.Some? ==> NonceOf(s, signer.value) == nonce)
    && forall a :: NonceOf(s', a) as int == NonceOf(s, a) + (if signer == Some(a) then 1 else 0)
  }

  lemma TransferCounts(env: Env, s: Snapshot, tx: Transaction)
    ensures var step := ApplyTransaction(env, s, tx);
            step.outcome.Done? ==>
              CountsOnce(s, step.state, Signer(env, s.chainId, Transfer(tx)), tx.unsigned.nonce)
  {
    var u := tx.unsigned;
    TransferWrites(env, s, tx);
    if ValidateTransaction(env, s, tx).Ok? {
      if FromFaucet(env, s, u) {
        assert FaucetTransfer(s, u).outcome.Done? ==> CountsOnce(s, FaucetTransfer(s, u).state, None, u.nonce);
      } else {
        WalletCounts(s, u);
      }
    }
  }

  lemma WalletCounts(s: Snapshot, u: UnsignedTransaction)
    requires NonceOf(s, u.from) == u.nonce
    ensures WalletTransfer(s, u).Ok? ==> CountsOnce(s, WalletTransfer(s, u).value, Some(u.from), u.nonce)
  {
  }

  lemma TokenCounts(env: Env, s: Snapshot, op: TokenOperation, id: Hash)
    ensures var step := ApplyToken(env, s, op, id);
            step.outcome == Done(true) ==> CountsOnce(s, step.state, Some(op.unsigned.from), op.unsigned.nonce)
  {
    TokenWrites(env, s, op, id);
    if ApplyToken(env, s, op, id).outcome == Done(true) {
      var paid := ChargeTokenFee(s, op.unsigned).value;
      TokenActionWrites(env, paid, op.unsigned, id);
      hide TokenAction;
    }
  }

  lemma SwapCounts(env: Env, s: Snapshot, op: MnaSwapOperation)
    ensures var step := ApplySwap(env, s, op);
            step.outcome == Done(true) ==> CountsOnce(s, step.state, Some(op.unsigned.from), op.unsigned.nonce)
  {
    hide IsSupportedUsdc, CanonicalKey;
    var u, account := op.unsigned, AccountOf(s, op.unsigned.from);
    SwapWrites(env, s, op);
    if ApplySwap(env, s, op).outcome == Done(true) {
      var marked := s.(mna := s.mna.(processedSwaps := s.mna.processedSwaps + {env.swapId(u)}));
      MintCounts(marked, op, env.swapId(u));
      RedeemCounts(marked, op, env.swapId(u));
    }
  }

  lemma MintCounts(s: Snapshot, op: MnaSwapOperation, id: Hash)
    ensures MintEffect(s, op, id).Ok? ==>
              CountsOnce(s, MintEffect(s, op, id).value, Some(op.unsigned.from), NonceOf(s, op.unsigned.from))
  {
    hide CanonicalKey;
  }

  lemma RedeemCounts(s: Snapshot, op: MnaSwapOperation, id: Hash)
    ensures RedeemEffect(s, op, id).Ok? ==>
              CountsOnce(s, RedeemEffect(s, op, id).value, Some(op.unsigned.from), NonceOf(s, op.unsigned.from))
  {
    hide CanonicalKey;
  }

  lemma ProgramCounts(env: Env, s: Snapshot, op: ProgramOperation, height: nat)
    ensures var step := ApplyProgram(env, s, op, height);
            step.outcome == Done(true) ==> CountsOnce(s, step.state, Some(env.addressOf(op.publicKey)), op.nonce)
  {
    ProgramWrites(env, s, op, height);
    if ApplyProgram(env, s, op, height).outcome == Done(true) {
      var owner := env.addressOf(op.publicKey);
      ProgramActionWrites(env, SetAccount(s, owner, AccountOf(s, owner)), op, owner, height);
      hide ProgramAction;
    }
  }

  lemma ReserveCounts(env: Env, s: Snapshot, op: MnaReserveOperation)
    ensures var step := ApplyReserve(env, s, op); CountsOnce(s, step.state, None, 0)
  {
    hide IsSupportedUsdc, IsSupportedSol;
    ReserveWrites(env, s, op);
    var marked := s.(mna := s.mna.(processedReserves := s.mna.processedReserves + {env.reserveId(op)}));
    assert DepositEffect(marked, op).Ok? ==> CountsOnce(s, DepositEffect(marked, op).value, None, 0);
    assert ReleaseEffect(marked, op).Ok? ==> CountsOnce(s, ReleaseEffect(marked, op).value, None, 0);
  }

  /** An applied operation uses exactly the signer's nonce and raises it by one; no other nonce moves. */
  lemma StepCounts(env: Env, s: Snapshot, op: Op)
    requires Apply(env, s, op).outcome == Done(true)
    ensures CountsOnce(s, Apply(env, s, op).state, Signer(env, s.chainId, op), NonceIn(op))
  {
    match op
    case Transfer(tx) => TransferCounts(env, s, tx);
    case Bridge(o) => BridgeWrites(s, o);
    case Token(o) => TokenCounts(env, s, o, env.tokenOpId(o.unsigned));
    case Swap(o) => SwapCounts(env, s, o);
    case Reserve(o) => ReserveCounts(env, s, o);
    case Program(o, height) => ProgramCounts(env, s, o, height);
    case Credit(a, amount) =>
  }

  /** An operation reported as a duplicate changes nothing at all. */
  lemma DuplicateChangesNothing(env: Env, s: Snapshot, op: Op)
    requires Apply(env, s, op).outcome == Done(false)
    ensures Apply(env, s, op).state == s
  {
    match op
    case Transfer(tx) => DoneTransferIsApplied(env, s, tx);
    case Bridge(o) =>
    case Token(o) =>
    case Swap(o) =>
    case Reserve(o) =>
    case Program(o, height) =>
    case Credit(a, amount) =>
  }

  lemma DoneTransferIsApplied(env: Env, s: Snapshot, tx: Transaction)
    ensures ApplyTransaction(env, s, tx).outcome != Done(false)
  {
  }

  /** How many operations of the run were applied with this signer. */
  function Applied(env: Env, s: Snapshot, ops: seq<Op>, a: Address): nat
    decreases |ops|
  {
    if ops == [] then 0
    else
      var step := Apply(env, s, ops[0]);
      (if step.outcome == Done(true) && Signer(env, s.chainId, ops[0]) == Some(a) then 1 else 0)
        + Applied(env, step.state, ops[1..], a)
  }

  /** Every address's nonce counts exactly the applied operations it signed. */
  lemma {:induction false} NonceCountsApplied(env: Env, s: Snapshot, ops: seq<Op>, a: Address)
    ensures var end := Run(env, s, ops);
            end.Some? ==>
              && end.value.chainId == s.chainId
              && NonceOf(end.value, a) as int == NonceOf(s, a) + Applied(env, s, ops, a)
    decreases |ops|
  {
    if ops != [] && Apply(env, s, ops[0]).outcome.Done? {
      if Apply(env, s, ops[0]).outcome == Done(true) {
        StepCounts(env, s, ops[0]);
      } else {
        DuplicateChangesNothing(env, s, ops[0]);
      }
      NonceCountsApplied(env, Apply(env, s, ops[0]).state, ops[1..], a);
    }
  }

  /** Once a signed operation has been applied, no operation with its signer and nonce is applied again:
      whatever accepted run follows, the ledger refuses it or reports a duplicate. */
  lemma NoSecondEffect(env: Env, s: Snapshot, first: Op, between: seq<Op>, second: Op)
    requires Apply(env, s, first).outcome == Done(true) && Signer(env, s.chainId, first).Some?
    requires Signer(env, s.chainId, second) == Signer(env, s.chainId, first) && NonceIn(second) == NonceIn(first)
    ensures var end := Run(env, Apply(env, s, first).state, between);
            end.Some? ==> Apply(env, end.value, second).outcome != Done(true)
  {
    var s' := Apply(env, s, first).state;
    var end := Run(env, s', between);
    StepCounts(env, s, first);
    NonceCountsApplied(env, s', between, Signer(env, s.chainId, first).value);
    if end.Some? && Apply(env, end.value, second).outcome == Done(true) {
      StepCounts(env, end.value, second);
    }
  }

  /** Faucet transfers carry a nonce that nothing counts: one that was applied is applied again, by every importer that
      meets it, for as long as receiver and fee pool have room. The one exception is a transfer to the faucet's own new
      account, whose nonce is then checked. */
  lemma FaucetTransferRepeats(env: Env, s: Snapshot, tx: Transaction)
    requires FromFaucet(env, s, tx.unsigned) && ApplyTransaction(env, s, tx).outcome == Done(true)
    ensures var u, s' := tx.unsigned, ApplyTransaction(env, s, tx).state;
            ApplyTransaction(env, s', tx).outcome == Done(true) <==>
            && AccountOf(s', u.to).balance + u.amount <= U128_MAX && s'.native.feePool + u.fee <= U128_MAX
            && (u.from !in s.native.accounts && u.from == u.to ==> u.nonce == 0)
  {
    TransferWrites(env, s, tx);
  }

  /** The replay set of bridge operations only grows along a run. */
  lemma {:induction false} BridgeIdsStay(env: Env, s: Snapshot, ops: seq<Op>)
    ensures var end := Run(env, s, ops); end.Some? ==> s.assets.processed <= end.value.assets.processed
    decreases |ops|
  {
    if ops != [] {
      match ops[0] {
        case Transfer(tx) => TransferWrites(env, s, tx);
        case Bridge(o) =>
        case Token(o) => TokenWrites(env, s, o, env.tokenOpId(o.unsigned));
        case Swap(o) => SwapWrites(env, s, o);
        case Reserve(o) => ReserveWrites(env, s, o);
        case Program(o, height) => ProgramWrites(env, s, o, height);
        case Credit(a, amount) =>
      }
      BridgeIdsStay(env, Apply(env, s, ops[0]).state, ops[1..]);
    }
  }

  /** A bridge operation id moves balances at most once in any run, mint or burn. */
  lemma BridgeIdOnce(env: Env, s: Snapshot, first: AssetOperation, between: seq<Op>, second: AssetOperation)
    requires ApplyAssetOperation(s, first).outcome == Done(true) && second.operationId == first.operationId
    ensures var end := Run(env, ApplyAssetOperation(s, first).state, between);
            end.Some? ==>
              ApplyAssetOperation(end.value, second).state == end.value
              && ApplyAssetOperation(end.value, second).outcome != Done(true)
  {
    BridgeIdsStay(env, ApplyAssetOperation(s, first).state, between);
  }
}
