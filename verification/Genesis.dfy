/** The first ledger state of a chain, from its configuration. */
module Genesis {
  import opened Wrappers
  import opened Core
  import opened Ledger
  import opened Sums
  import opened NativeAccounting

  /** No address is allocated to twice. */
  predicate DistinctAllocations(allocations: seq<GenesisAllocation>) {
    forall i, j :: 0 <= i < j < |allocations| ==> allocations[i].address != allocations[j].address
  }

  function Allocated(allocations: seq<GenesisAllocation>): nat {
    if allocations == [] then 0
    else Allocated(allocations[..|allocations| - 1]) + allocations[|allocations| - 1].balance
  }

  function AllocatedAccounts(allocations: seq<GenesisAllocation>): map<Address, Account> {
    if allocations == [] then map[]
    else
      var last := allocations[|allocations| - 1];
      AllocatedAccounts(allocations[..|allocations| - 1])[last.address := Account(last.balance, 0)]
  }

  lemma {:induction false} AllocatedKeys(allocations: seq<GenesisAllocation>)
    ensures forall a ::
              a in AllocatedAccounts(allocations) <==>
              (exists i :: 0 <= i < |allocations| && allocations[i].address == a)
  {
    if allocations != [] {
      var n := |allocations| - 1;
      AllocatedKeys(allocations[..n]);
      forall a ensures a in AllocatedAccounts(allocations)
          <==> exists i :: 0 <= i < |allocations| && allocations[i].address == a {
        if a in AllocatedAccounts(allocations[..n]) {
          var i :| 0 <= i < n && allocations[..n][i].address == a;
          assert allocations[i].address == a;
        }
        if i :| 0 <= i < n && allocations[i].address == a {
          assert allocations[..n][i].address == a;
        }
        assert a == allocations[n].address ==> a in AllocatedAccounts(allocations);
      }
    }
  }

  /** The first state, when the allocations are distinct and add up to the declared supply. */
  function InitialState(genesis: GenesisConfig): Option<Snapshot> {
    if DistinctAllocations(genesis.allocations) && Allocated(genesis.allocations) == genesis.initialSupply
    then Some(GenesisState(genesis.chainId, genesis.feeMinimum, AllocatedAccounts(genesis.allocations))) else None
  }

  /** A configuration opens a chain exactly when its allocations are distinct and add up to the declared supply. */
  method FromGenesis(genesis: GenesisConfig) returns (r: Result<Snapshot, StateError>)
    ensures r.Ok? <==>
            DistinctAllocations(genesis.allocations) && Allocated(genesis.allocations) == genesis.initialSupply
    ensures InitialState(genesis) == if r.Ok? then Some(r.value) else None
  {
    var accounts: map<Address, Account> := map[];
    var total: u128 := 0;
    var all := genesis.allocations;
    for i := 0 to |all|
      invariant DistinctAllocations(all[..i])
      invariant total == Allocated(all[..i])
      invariant accounts == AllocatedAccounts(all[..i])
    {
      AllocatedKeys(all[..i]);
      if all[i].address in accounts {
        assert !DistinctAllocations(all) by {
          var j :| 0 <= j < i && all[..i][j].address == all[i].address;
          assert all[j].address == all[i].address;
        }
        return Err(DuplicateGenesisAllocation);
      }
      assert all[..i + 1][..i] == all[..i];
      if total + all[i].balance > U128_MAX {
        AllocatedGrows(all, i + 1);
        return Err(GenesisSupplyMismatch);
      }
      forall j | 0 <= j < i ensures all[j].address != all[i].address {
        assert all[..i][j].address == all[j].address;
      }
      total := total + all[i].balance;
      accounts := accounts[all[i].address := Account(all[i].balance, 0)];
    }
    assert all[..|all|] == all;
    if total != genesis.initialSupply {
      return Err(GenesisSupplyMismatch);
    }
    return Ok(GenesisState(genesis.chainId, genesis.feeMinimum, accounts));
  }

  lemma {:induction false} AllocatedGrows(all: seq<GenesisAllocation>, i: nat)
    requires i <= |all|
    ensures Allocated(all[..i]) <= Allocated(all)
    decreases |all|
  {
    if i < |all| {
      AllocatedGrows(all[..|all| - 1], i);
      assert all[..|all| - 1][..i] == all[..i];
    } else {
      assert all[..i] == all;
    }
  }

  lemma {:induction false} AllocatedTotal(allocations: seq<GenesisAllocation>)
    requires DistinctAllocations(allocations)
    ensures Total(AllocatedAccounts(allocations), BalanceOf) == Allocated(allocations)
  {
    if allocations == [] {
      TotalEmpty(AllocatedAccounts(allocations), BalanceOf);
    } else {
      var rest, last := allocations[..|allocations| - 1], allocations[|allocations| - 1];
      AllocatedTotal(rest);
      AllocatedKeys(rest);
      TotalSet(AllocatedAccounts(rest), BalanceOf, last.address, Account(last.balance, 0));
    }
  }

  /** On a chain opened from its configuration, the units cover the declared supply, what was issued later and what the
      reserve backs; they are exactly that if and only if no redemption that wraps was applied. */
  lemma ChainAccounting(env: Env, genesis: GenesisConfig, ops: seq<Op>)
    requires Metered(env) && InitialState(genesis).Some?
    ensures var end := Run(env, InitialState(genesis).value, ops);
            end.Some? ==>
              var units := Supply(end.value) + BurnedSwapFees(end.value);
              var expected :=
                genesis.initialSupply + TotalIssuance(env, genesis.chainId, ops) + end.value.mna.reserve.backedMna;
              units >= expected && (units == expected <==> NoneWraps(env, InitialState(genesis).value, ops))
  {
    hide Run, TotalIssuance, NoneWraps, Supply, BurnedSwapFees;
    AllocatedTotal(genesis.allocations);
    GenesisAccounting(env, genesis.chainId, genesis.feeMinimum, AllocatedAccounts(genesis.allocations), ops);
  }
}
