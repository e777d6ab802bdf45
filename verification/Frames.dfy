/** Which books of the ledger each operation family may write, whatever its outcome. */
module Frames {
  import opened Core
  import opened Ledger

  lemma TransferWrites(env: Env, s: Snapshot, tx: Transaction)
    ensures var next := ApplyTransaction(env, s, tx).state; next == s.(native := next.native)
  {
    var u := tx.unsigned;
    if ValidateTransaction(env, s, tx).Ok? {
      if FromFaucet(env, s, u) {
        assert var next := FaucetTransfer(s, u).state; next == s.(native := next.native);
      } else {
        assert WalletTransfer(s, u).Ok? ==>
               var next := WalletTransfer(s, u).value; next == s.(native := next.native);
      }
    }
  }

  lemma BridgeWrites(s: Snapshot, op: AssetOperation)
    ensures var next := ApplyAssetOperation(s, op).state;
            next == s.(assets := next.assets, mna := s.mna.(reserve := next.mna.reserve))
  {
  }

  lemma SwapWrites(env: Env, s: Snapshot, op: MnaSwapOperation)
    ensures var next := ApplySwap(env, s, op).state;
            next == s.(native := next.native, assets := s.assets.(balances := next.assets.balances),
                       mna := s.mna.(reserve := next.mna.reserve, processedSwaps := next.mna.processedSwaps,
                                     swapRecords := next.mna.swapRecords))
  {
    var id := env.swapId(op.unsigned);
    var marked := s.(mna := s.mna.(processedSwaps := s.mna.processedSwaps + {id}));
    SwapEffectWrites(marked, op, id);
  }

  lemma SwapEffectWrites(s: Snapshot, op: MnaSwapOperation, id: Hash)
    ensures SwapEffect(s, op, id).Ok? ==>
              var next := SwapEffect(s, op, id).value;
              next == s.(native := next.native, assets := s.assets.(balances := next.assets.balances),
                         mna := s.mna.(reserve := next.mna.reserve, swapRecords := s.mna.swapRecords[id := op]))
  {
    assert MintEffect(s, op, id).Ok? ==>
           var next := MintEffect(s, op, id).value;
           next == s.(native := next.native, assets := s.assets.(balances := next.assets.balances),
                      mna := s.mna.(reserve := next.mna.reserve, swapRecords := s.mna.swapRecords[id := op]));
    assert RedeemEffect(s, op, id).Ok? ==>
           var next := RedeemEffect(s, op, id).value;
           next == s.(native := next.native, assets := s.assets.(balances := next.assets.balances),
                      mna := s.mna.(reserve := next.mna.reserve, swapRecords := s.mna.swapRecords[id := op]));
  }

  lemma ReserveWrites(env: Env, s: Snapshot, op: MnaReserveOperation)
    ensures var next := ApplyReserve(env, s, op).state;
            next == s.(native := next.native,
                       mna := s.mna.(reserve := next.mna.reserve, processedReserves := next.mna.processedReserves,
                                     reserveRecords := next.mna.reserveRecords))
  {
    var id := env.reserveId(op);
    var marked := s.(mna := s.mna.(processedReserves := s.mna.processedReserves + {id}));
    assert DepositEffect(marked, op).Ok? ==>
           var next := DepositEffect(marked, op).value;
           next == marked.(native := next.native, mna := marked.mna.(reserve := next.mna.reserve));
    assert ReleaseEffect(marked, op).Ok? ==>
           var next := ReleaseEffect(marked, op).value;
           next == marked.(mna := marked.mna.(reserve := next.mna.reserve));
  }

  lemma TokenActionWrites(env: Env, s: Snapshot, u: UnsignedTokenOperation, id: Hash)
    ensures TokenAction(env, s, u, id).Ok? ==>
              var next := TokenAction(env, s, u, id).value;
              next == s.(assets := s.assets.(balances := next.assets.balances),
                         tokens := s.tokens.(definitions := next.tokens.definitions, frozen := next.tokens.frozen))
  {
  }

  lemma TokenWrites(env: Env, s: Snapshot, op: TokenOperation, id: Hash)
    ensures var next := ApplyToken(env, s, op, id).state;
            next == s.(native := next.native, assets := s.assets.(balances := next.assets.balances),
              tokens := next.tokens)
  {
    var paid := ChargeTokenFee(s, op.unsigned);
    if paid.Ok? {
      TokenActionWrites(env, paid.value, op.unsigned, id);
    }
  }

  lemma ProgramActionWrites(env: Env, s: Snapshot, op: ProgramOperation, owner: Address, height: nat)
    ensures ProgramAction(env, s, op, owner, height).Ok? ==>
              var next := ProgramAction(env, s, op, owner, height).value.state;
              next == s.(programs := s.programs.(live := next.programs.live, closed := next.programs.closed))
  {
  }

  lemma ProgramWrites(env: Env, s: Snapshot, op: ProgramOperation, height: nat)
    ensures var next := ApplyProgram(env, s, op, height).state;
            next == s.(native := next.native, programs := next.programs)
  {
    var owner := env.addressOf(op.publicKey);
    ProgramActionWrites(env, SetAccount(s, owner, AccountOf(s, owner)), op, owner, height);
  }
}
