/** Opening a node on a store that is already there, under any genesis configuration. */
module Reopening {
  import opened Wrappers
  import opened Core
  import opened Ledger
  import opened Genesis
  import opened Storage
  import opened Consensus
  import opened Nodes
  import opened Chain

  /** What two configurations have in common when their first blocks are the same. */
  predicate SameStart(env: Env, g: GenesisConfig, h: GenesisConfig)
    requires InitialState(g).Some? && InitialState(h).Some?
  {
    && g.chainId == h.chainId && g.genesisTime == h.genesisTime
    && env.stateRoot(InitialState(g).value) == env.stateRoot(InitialState(h).value)
  }

  /** Whatever the store, a node that opens has the stored latest block and a state under its root, and the store is that
      of its own genesis. */
  lemma OpenedIsConsistent(env: Env, genesis: GenesisConfig, d: Disk)
    ensures var r := Open(env, genesis, d);
            r.result.Ok? ==>
              var n := r.result.value;
              && n.genesis == genesis && n.pools == EMPTY_POOLS && n.disk == r.disk
              && n.disk.meta.chainId == Some(genesis.chainId) && StartsAt(env, genesis, n.disk.meta.genesisHash.value)
              && n.disk.meta.finalizedHeight.Some?
              && n.disk.meta.latestHash.Some? && n.disk.meta.latestHash.value in n.disk.blocks
              && n.disk.blocks[n.disk.meta.latestHash.value] == n.latest && n.latest.header.chainId == genesis.chainId
              && n.disk.state == Some(n.state) && env.stateRoot(n.state) == n.latest.header.stateRoot
              && (d.meta.chainId.Some? ==> n.disk == d.(meta := n.disk.meta))
  {
    hide InitialState, GenesisBlock, Indexed;
  }

  /** A chain can be reopened under another configuration if and only if it starts alike; then the same chain and state
      are found. In no case does the store change. */
  lemma ReopenedExactly(env: Env, n: NodeView, genesis: GenesisConfig)
    requires HeadersHashApart(env) && ChainOk(env, n) && InitialState(genesis).Some?
    ensures InitialState(n.genesis).Some?
    ensures var r := Open(env, genesis, n.disk);
            && r.disk == n.disk
            && (r.result.Ok? <==> SameStart(env, genesis, n.genesis))
            && (r.result.Ok? ==> r.result.value == n.(genesis := genesis, pools := EMPTY_POOLS))
  {
    LatestIsLinked(env, n);
    hide InitialState, Linked;
    var mine := GenesisBlock(env, n.genesis, InitialState(n.genesis).value).header;
    var theirs := GenesisBlock(env, genesis, InitialState(genesis).value).header;
    assert env.blockId(mine) == n.disk.heights[0];
    assert mine == theirs <==> SameStart(env, genesis, n.genesis);
    assert env.blockId(mine) == env.blockId(theirs) ==> mine == theirs;
  }

  /** The first block does not name the validators: a chain reopens under any list of them, and then only the validator
      scheduled by the new list may propose. */
  lemma ValidatorsAreNotChecked(env: Env, n: NodeView, validators: seq<Validator>, key: PublicKey, timestamp: nat)
    requires HeadersHashApart(env) && ChainOk(env, n) && validators != []
    ensures var r := Open(env, n.genesis.(validators := validators), n.disk);
            && r.result == Ok(n.(genesis := n.genesis.(validators := validators), pools := EMPTY_POOLS))
            && (Produce(env, r.result.value, Some(key), timestamp).result.Ok?
                <==> key == validators[(n.latest.header.height + 1) % |validators|].publicKey)
  {
    var genesis := n.genesis.(validators := validators);
    assert InitialState(genesis) == InitialState(n.genesis);
    assert InitialState(n.genesis).Some?;
    hide InitialState;
    ReopenedExactly(env, n, genesis);
    hide Open, Build, Seal, Extended, Unstored;
  }
}
