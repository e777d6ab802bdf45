/** Totals of wrapped and custom assets over all addresses. */
module Holdings {
  import opened Core
  import opened Ledger
  import opened Sums

  ghost function HoldingOf(key: string): map<string, u128> -> nat {
    (assets: map<string, u128>) => Holding(assets, key)
  }

  /** How much of one asset all addresses hold together. */
  ghost function KeyTotal(balances: map<Address, map<string, u128>>, key: string): nat {
    Total(balances, HoldingOf(key))
  }

  lemma HoldingMoves(s: Snapshot, a: Address, key: string, amount: u128, other: string)
    ensures KeyTotal(SetHolding(s, a, key, amount).assets.balances, other)
            == KeyTotal(s.assets.balances, other)
               + (if other == key then amount - AssetBalance(s, a, key) else 0)
    ensures AssetBalance(s, a, other) <= KeyTotal(s.assets.balances, other)
  {
    var changed := AssetsOf(s, a)[key := amount];
    TotalSet(s.assets.balances, HoldingOf(other), a, changed);
    assert HoldingOf(other)(changed) == if other == key then amount else AssetBalance(s, a, other);
    assert a in s.assets.balances ==> HoldingOf(other)(s.assets.balances[a]) == AssetBalance(s, a, other);
  }

  /** Creating an empty wallet entry holds nothing. */
  lemma EntryHoldsNothing(s: Snapshot, a: Address, other: string)
    ensures KeyTotal(s.assets.balances[a := AssetsOf(s, a)], other) == KeyTotal(s.assets.balances, other)
  {
    TotalSet(s.assets.balances, HoldingOf(other), a, AssetsOf(s, a));
    assert HoldingOf(other)(AssetsOf(s, a)) == AssetBalance(s, a, other);
  }
}
