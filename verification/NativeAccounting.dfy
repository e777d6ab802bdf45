/** Every unit of native MNA is accounted for, over every run. */
module NativeAccounting {
  import opened Core
  import opened Ledger
  import opened Sums
  import opened Frames

  const BalanceOf: Account -> nat := (a: Account) => a.balance
  const SwapFeeOf: MnaSwapOperation -> nat := (o: MnaSwapOperation) => o.unsigned.fee

  /** Balances plus the fee pool. */
  ghost function Supply(s: Snapshot): nat {
    Total(s.native.accounts, BalanceOf) + s.native.feePool
  }

  /** Swap fees leave the payer but never reach the fee pool. */
  ghost function BurnedSwapFees(s: Snapshot): nat {
    Total(s.mna.swapRecords, SwapFeeOf)
  }

  /** The quantity that only issuance moves. */
  ghost function Outstanding(s: Snapshot): int {
    Supply(s) + BurnedSwapFees(s) - s.mna.reserve.backedMna
  }

  /** What an accepted operation issues without backing. */
  function Issuance(env: Env, chainId: string, op: Op): nat {
    match op
    case Transfer(tx) =>
      if IsDevnet(chainId) && tx.unsigned.publicKey == env.faucetKey then tx.unsigned.amount + tx.unsigned.fee else 0
    case Credit(_, amount) => amount
    case _ => 0
  }

  function TotalIssuance(env: Env, chainId: string, ops: seq<Op>): nat {
    if ops == [] then 0 else Issuance(env, chainId, ops[0]) + TotalIssuance(env, chainId, ops[1..])
  }

  /** Recorded swaps are marked as processed, so a record is never overwritten. */
  ghost predicate SwapsMarked(s: Snapshot) {
    s.mna.swapRecords.Keys <= s.mna.processedSwaps
  }

  /** Amount and fee of a redemption fit in u128 together. */
  predicate RedeemFits(op: Op) {
    op.Swap? && op.swap.unsigned.kind == RedeemMna ==>
      op.swap.unsigned.amountMna + op.swap.unsigned.fee <= U128_MAX
  }

  /** What a step adds to the outstanding units beyond its issuance: 2^128 for a redemption that is applied although
      amount and fee wrap. */
  function Surplus(op: Op, outcome: Outcome): nat {
    if outcome == Done(true) && !RedeemFits(op) then U128_MAX + 1 else 0
  }

  /** The same along an accepted run. */
  function TotalSurplus(env: Env, s: Snapshot, ops: seq<Op>): nat
    decreases |ops|
  {
    if ops == [] then 0
    else
      var step := Apply(env, s, ops[0]);
      Surplus(ops[0], step.outcome) + TotalSurplus(env, step.state, ops[1..])
  }

  /** No redemption that wraps is applied along the run. */
  predicate NoneWraps(env: Env, s: Snapshot, ops: seq<Op>)
    decreases |ops|
  {
    ops != [] ==>
      var step := Apply(env, s, ops[0]);
      (step.outcome == Done(true) ==> RedeemFits(ops[0])) && NoneWraps(env, step.state, ops[1..])
  }

  lemma AccountMoves(s: Snapshot, a: Address, account: Account)
    ensures Total(SetAccount(s, a, account).native.accounts, BalanceOf)
            == Total(s.native.accounts, BalanceOf) - AccountOf(s, a).balance + account.balance
    ensures AccountOf(s, a).balance <= Total(s.native.accounts, BalanceOf)
  {
    TotalSet(s.native.accounts, BalanceOf, a, account);
  }

  lemma FaucetSupply(s: Snapshot, u: UnsignedTransaction)
    ensures FaucetTransfer(s, u).outcome.Done? ==>
              Supply(FaucetTransfer(s, u).state) == Supply(s) + u.amount + u.fee
  {
    var receiver := AccountOf(s, u.to);
    if receiver.balance + u.amount <= U128_MAX {
      AccountMoves(s, u.to, Account(receiver.balance + u.amount, receiver.nonce));
    }
  }

  lemma WalletSupply(s: Snapshot, u: UnsignedTransaction)
    ensures WalletTransfer(s, u).Ok? ==> Supply(WalletTransfer(s, u).value) == Supply(s)
  {
    hide Total;
    var sender, receiver := AccountOf(s, u.from), AccountOf(s, u.to);
    if WalletTransfer(s, u).Ok? {
      if u.from == u.to {
        AccountMoves(s, u.from, Account(sender.balance - u.fee, sender.nonce + 1));
      } else {
        var debited := Account(sender.balance - u.amount - u.fee, sender.nonce + 1);
        AccountMoves(s, u.from, debited);
        AccountMoves(SetAccount(s, u.from, debited), u.to, Account(receiver.balance + u.amount, receiver.nonce));
      }
    }
  }

  lemma TransferAccounting(env: Env, s: Snapshot, tx: Transaction)
    ensures var step := ApplyTransaction(env, s, tx);
            step.outcome.Done? ==> Supply(step.state) == Supply(s) + Issuance(env, s.chainId, Transfer(tx))
  {
    FaucetSupply(s, tx.unsigned);
    WalletSupply(s, tx.unsigned);
  }

  lemma TokenAccounting(env: Env, s: Snapshot, op: TokenOperation, id: Hash)
    ensures var step := ApplyToken(env, s, op, id);
            step.outcome.Done? ==> Supply(step.state) == Supply(s)
  {
    var u := op.unsigned;
    if ApplyToken(env, s, op, id).outcome == Done(true) {
      var paid := ChargeTokenFee(s, u).value;
      AccountMoves(s, u.from, paid.native.accounts[u.from]);
      TokenActionWrites(env, paid, u, id);
    }
  }

  /** The fee a program operation is charged never exceeds the fee it was checked against. */
  lemma ChargedWithinAuthorised(env: Env, s: Snapshot, op: ProgramOperation, owner: Address, height: nat)
    requires Metered(env) && AuthorisedFee(s, op).Ok?
    ensures var authorised := AuthorisedFee(s, op).value;
            var run := ProgramAction(env, s, op, owner, height);
            run.Ok? ==>
              var charged := ChargedFee(s, op, authorised, run.value.gasUsed);
              charged.Ok? && charged.value <= authorised
  {
  }

  lemma SettlementSupply(run: ProgramRun, op: ProgramOperation, owner: Address, charged: u128, id: Hash)
    requires charged <= AccountOf(run.state, owner).balance
    ensures var r := SettleProgram(run, op, owner, charged, id); r.Ok? ==> Supply(r.value) == Supply(run.state)
  {
    var payer := AccountOf(run.state, owner);
    if payer.nonce < U64_MAX {
      assert WrappingSub(payer.balance, charged) == payer.balance - charged;
      AccountMoves(run.state, owner, Account(payer.balance - charged, payer.nonce + 1));
    }
  }

  lemma ProgramAccounting(env: Env, s: Snapshot, op: ProgramOperation, height: nat)
    requires Metered(env)
    ensures var step := ApplyProgram(env, s, op, height);
            step.outcome.Done? ==> Supply(step.state) == Supply(s)
  {
    if ApplyProgram(env, s, op, height).outcome == Done(true) {
      var owner := env.addressOf(op.publicKey);
      var account := AccountOf(s, owner);
      var entered := SetAccount(s, owner, account);
      AccountMoves(s, owner, account);
      ChargedWithinAuthorised(env, entered, op, owner, height);
      ProgramActionWrites(env, entered, op, owner, height);
      var run := ProgramAction(env, entered, op, owner, height).value;
      var charged := ChargedFee(entered, op, AuthorisedFee(s, op).value, run.gasUsed).value;
      SettlementSupply(run, op, owner, charged, env.programOpId(op));
    }
  }

  lemma DepositSupply(s: Snapshot, op: MnaReserveOperation)
    ensures var r := DepositEffect(s, op);
            r.Ok? ==> Supply(r.value) - r.value.mna.reserve.backedMna == Supply(s) - s.mna.reserve.backedMna
  {
    var account := AccountOf(s, op.address);
    if DepositEffect(s, op).Ok? && IsSupportedSol(op.collateralAsset) {
      AccountMoves(s, op.address, Account(account.balance + op.amountMna, account.nonce));
    }
  }

  lemma ReserveAccounting(env: Env, s: Snapshot, op: MnaReserveOperation)
    ensures var step := ApplyReserve(env, s, op);
            step.outcome.Done? ==>
              Supply(step.state) - step.state.mna.reserve.backedMna == Supply(s) - s.mna.reserve.backedMna
  {
    var marked := s.(mna := s.mna.(processedReserves := s.mna.processedReserves + {env.reserveId(op)}));
    DepositSupply(marked, op);
    assert ReleaseEffect(marked, op).Ok? ==>
           var next := ReleaseEffect(marked, op).value;
           next.native == s.native && next.mna.reserve.backedMna == s.mna.reserve.backedMna;
  }

  lemma MintMovesSupply(s: Snapshot, op: MnaSwapOperation, id: Hash)
    ensures var u, r := op.unsigned, MintEffect(s, op, id);
            r.Ok? ==> Supply(r.value) == Supply(s) - u.fee + u.amountMna
  {
    hide CanonicalKey;
    var u, account := op.unsigned, AccountOf(s, op.unsigned.from);
    if MintEffect(s, op, id).Ok? {
      AccountMoves(s, u.from, Account(account.balance - u.fee + u.amountMna, account.nonce + 1));
    }
  }

  lemma RedeemMovesSupply(s: Snapshot, op: MnaSwapOperation, id: Hash)
    ensures var u, r := op.unsigned, RedeemEffect(s, op, id);
            r.Ok? ==> Supply(r.value) == Supply(s) - WrappingAdd(u.amountMna, u.fee)
  {
    hide CanonicalKey, WrappingAdd;
    var u, account := op.unsigned, AccountOf(s, op.unsigned.from);
    if RedeemEffect(s, op, id).Ok? {
      AccountMoves(s, u.from, Account(account.balance - WrappingAdd(u.amountMna, u.fee), account.nonce + 1));
    }
  }

  lemma MintSupply(s: Snapshot, op: MnaSwapOperation, id: Hash)
    requires id !in s.mna.swapRecords
    ensures var r := MintEffect(s, op, id); r.Ok? ==> Outstanding(r.value) == Outstanding(s)
  {
    hide CanonicalKey, Supply;
    MintMovesSupply(s, op, id);
    TotalSet(s.mna.swapRecords, SwapFeeOf, id, op);
  }

  lemma RedeemSupply(s: Snapshot, op: MnaSwapOperation, id: Hash)
    requires id !in s.mna.swapRecords
    ensures var r := RedeemEffect(s, op, id);
            r.Ok? ==> Outstanding(r.value) == Outstanding(s)
                        + (if op.unsigned.amountMna + op.unsigned.fee <= U128_MAX then 0 else U128_MAX + 1)
  {
    hide CanonicalKey, Supply;
    RedeemMovesSupply(s, op, id);
    TotalSet(s.mna.swapRecords, SwapFeeOf, id, op);
  }

  /** An applied swap keeps the account exact if and only if it is not a redemption whose amount and fee wrap; that one
      leaves 2^128 too many. */
  lemma SwapAccounting(env: Env, s: Snapshot, op: MnaSwapOperation)
    requires SwapsMarked(s)
    ensures var step := ApplySwap(env, s, op);
            step.outcome == Done(true) ==>
              SwapsMarked(step.state)
              && Outstanding(step.state) == Outstanding(s) + Surplus(Op.Swap(op), step.outcome)
              && (Outstanding(step.state) == Outstanding(s) <==> RedeemFits(Op.Swap(op)))
  {
    var id := env.swapId(op.unsigned);
    if ApplySwap(env, s, op).outcome == Done(true) {
      var marked := s.(mna := s.mna.(processedSwaps := s.mna.processedSwaps + {id}));
      SwapEffectWrites(marked, op, id);
      MintSupply(marked, op, id);
      RedeemSupply(marked, op, id);
      assert Outstanding(marked) == Outstanding(s);
    }
  }

  /** Every accepted operation of every family moves the outstanding units by what it issues, plus the surplus of a
      redemption that wraps. */
  lemma StepAccounting(env: Env, s: Snapshot, op: Op)
    requires Metered(env) && SwapsMarked(s)
    ensures var step := Apply(env, s, op);
            step.outcome.Done? ==>
              SwapsMarked(step.state) && step.state.chainId == s.chainId
              && Outstanding(step.state)
                 == Outstanding(s) + Issuance(env, s.chainId, op) + Surplus(op, step.outcome)
  {
    match op
    case Transfer(tx) => TransferAccounting(env, s, tx); TransferWrites(env, s, tx);
    case Bridge(o) => BridgeWrites(s, o); BridgeKeepsBacking(s, o);
    case Token(o) => TokenAccounting(env, s, o, env.tokenOpId(o.unsigned));
      TokenWrites(env, s, o, env.tokenOpId(o.unsigned));
    case Swap(o) => SwapAccounting(env, s, o); SwapWrites(env, s, o);
    case Reserve(o) => ReserveAccounting(env, s, o); ReserveWrites(env, s, o);
    case Program(o, height) => ProgramAccounting(env, s, o, height); ProgramWrites(env, s, o, height);
    case Credit(a, amount) => CreditAccounting(s, a, amount);
  }

  lemma BridgeKeepsBacking(s: Snapshot, op: AssetOperation)
    ensures ApplyAssetOperation(s, op).state.mna.reserve.backedMna == s.mna.reserve.backedMna
  {
  }

  lemma CreditAccounting(s: Snapshot, a: Address, amount: u128)
    ensures var r := CreditDevnet(s, a, amount);
            r.Ok? ==> Supply(r.value) == Supply(s) + amount && r.value == s.(native := r.value.native)
  {
    var account := AccountOf(s, a);
    if account.balance + amount <= U128_MAX {
      AccountMoves(s, a, Account(account.balance + amount, account.nonce));
    }
  }

  /** Over an accepted run the steps add up. */
  lemma {:induction false} RunAccounting(env: Env, s: Snapshot, ops: seq<Op>)
    requires Metered(env) && SwapsMarked(s)
    ensures var end := Run(env, s, ops);
            end.Some? ==>
              SwapsMarked(end.value)
              && Outstanding(end.value)
                 == Outstanding(s) + TotalIssuance(env, s.chainId, ops) + TotalSurplus(env, s, ops)
    decreases |ops|
  {
    hide Apply, Outstanding, Issuance, Surplus, SwapsMarked, Metered;
    if ops != [] && Apply(env, s, ops[0]).outcome.Done? {
      StepAccounting(env, s, ops[0]);
      RunAccounting(env, Apply(env, s, ops[0]).state, ops[1..]);
    }
  }

  lemma {:induction false} NoSurplus(env: Env, s: Snapshot, ops: seq<Op>)
    ensures TotalSurplus(env, s, ops) == 0 <==> NoneWraps(env, s, ops)
    decreases |ops|
  {
    hide Apply, RedeemFits;
    if ops != [] {
      NoSurplus(env, Apply(env, s, ops[0]).state, ops[1..]);
    }
  }

  /** Balances + fee pool + burned swap fees never fall behind what was there + everything issued since + reserve-backed
      MNA on any accepted run, and are equal to it if and only if no redemption that wraps was applied. */
  lemma ExactAccounting(env: Env, s: Snapshot, ops: seq<Op>)
    requires Metered(env) && SwapsMarked(s)
    ensures var end := Run(env, s, ops);
            end.Some? ==>
              && Outstanding(end.value) >= Outstanding(s) + TotalIssuance(env, s.chainId, ops)
              && (Outstanding(end.value) == Outstanding(s) + TotalIssuance(env, s.chainId, ops)
                  <==> NoneWraps(env, s, ops))
  {
    hide Run, Outstanding, TotalIssuance, TotalSurplus, NoneWraps;
    RunAccounting(env, s, ops);
    NoSurplus(env, s, ops);
  }

  /** From genesis the account starts at the initial supply. */
  lemma GenesisAccounting(env: Env, chainId: string, feeMinimum: u128, accounts: map<Address, Account>, ops: seq<Op>)
    requires Metered(env)
    ensures var s := GenesisState(chainId, feeMinimum, accounts);
            var end := Run(env, s, ops);
            end.Some? ==>
              var units := Supply(end.value) + BurnedSwapFees(end.value);
              var expected :=
                Total(accounts, BalanceOf) + TotalIssuance(env, chainId, ops) + end.value.mna.reserve.backedMna;
              units >= expected && (units == expected <==> NoneWraps(env, s, ops))
  {
    hide Run, TotalIssuance, NoneWraps;
    var s := GenesisState(chainId, feeMinimum, accounts);
    TotalEmpty(s.mna.swapRecords, SwapFeeOf);
    ExactAccounting(env, s, ops);
  }

  /** While no more than 2^127 units exist, no redemption the ledger validates can wrap. */
  lemma RedeemCannotWrap(env: Env, s: Snapshot, op: MnaSwapOperation)
    requires Supply(s) <= 0x8000_0000_0000_0000_0000_0000_0000_0000
    requires ValidateSwap(env, s, op).Ok?
    ensures RedeemFits(Op.Swap(op))
  {
    AccountMoves(s, op.unsigned.from, AccountOf(s, op.unsigned.from));
  }

  /** No more than 2^127 units exist at any point of the run. */
  ghost predicate StaysSmall(env: Env, s: Snapshot, ops: seq<Op>)
    decreases |ops|
  {
    && Supply(s) <= 0x8000_0000_0000_0000_0000_0000_0000_0000
    && (ops != [] && Apply(env, s, ops[0]).outcome.Done? ==> StaysSmall(env, Apply(env, s, ops[0]).state, ops[1..]))
  }

  /** On such a run the account is exact whatever the operations are. */
  lemma {:induction false} SmallSupplyAccounting(env: Env, s: Snapshot, ops: seq<Op>)
    requires Metered(env) && SwapsMarked(s) && StaysSmall(env, s, ops)
    ensures var end := Run(env, s, ops);
            end.Some? ==> Outstanding(end.value) == Outstanding(s) + TotalIssuance(env, s.chainId, ops)
    decreases |ops|
  {
    if ops != [] && Apply(env, s, ops[0]).outcome.Done? {
      if ops[0].Swap? {
        RedeemCannotWrap(env, s, ops[0].swap);
      }
      StepAccounting(env, s, ops[0]);
      SmallSupplyAccounting(env, Apply(env, s, ops[0]).state, ops[1..]);
    }
  }
}
