/** The laws of the ledger hold in every state a node reaches by importing blocks. */
module ImportedLaws {
  import opened Wrappers
  import opened Core
  import opened Ledger
  import opened Genesis
  import opened MnaSolvency
  import opened TokenLedger
  import opened Programs
  import opened Replay
  import opened Nodes
  import opened BlockReplay
  import opened Network

  lemma {:induction false} ReplayedIsRun(env: Env, s: Snapshot, ops: seq<Op>)
    ensures Replayed(env, s, ops, Self).Ok? ==> Run(env, s, ops) == Some(Replayed(env, s, ops, Self).value)
    decreases |ops|
  {
    hide Apply;
    if ops != [] {
      ReplayedIsRun(env, Apply(env, s, ops[0]).state, ops[1..]);
    }
  }

  /** An imported block moves the state by an accepted run of its operations, or was held already. */
  lemma ImportIsRun(env: Env, n: NodeView, b: Block)
    requires Import(env, n, b).result.Ok?
    ensures Import(env, n, b).view == n || Run(env, n.state, BlockOps(b)) == Some(Import(env, n, b).view.state)
  {
    ReplayBlockIsOnePass(env, n.state, b);
    ReplayedIsRun(env, n.state, BlockOps(b));
    hide ReplayBlock, Replayed, Run, CheckHeader, CheckRoots, BlockOps, RemoveIds, BlockIds;
  }

  /** The conditions under which the laws are stated: no draw beyond the margin, no bridge operation on the key of a
      custom token. */
  ghost predicate LawfulRun(env: Env, s: Snapshot, ops: seq<Op>) {
    DrawsCovered(env, s, ops) && TokensUnbridged(env, s, ops)
  }

  /** The same for blocks, each at its turn. */
  ghost predicate LawfulBlocks(env: Env, n: NodeView, blocks: seq<Block>)
    decreases |blocks|
  {
    blocks != [] ==>
      && LawfulRun(env, n.state, BlockOps(blocks[0]))
      && (Import(env, n, blocks[0]).result.Ok? ==> LawfulBlocks(env, Import(env, n, blocks[0]).view, blocks[1..]))
  }

  ghost predicate LawsHold(env: Env, s: Snapshot) {
    Solvent(s) && Balanced(s) && ProgramsSound(env, s)
  }

  lemma RunKeepsLaws(env: Env, s: Snapshot, ops: seq<Op>)
    requires LawsHold(env, s) && LawfulRun(env, s, ops)
    ensures Run(env, s, ops).Some? ==> LawsHold(env, Run(env, s, ops).value)
  {
    hide Solvent, Balanced, ProgramsSound, DrawsCovered, TokensUnbridged, SolventThroughout, BalancedThroughout, Run;
    RunsStaySolvent(env, s, ops);
    SolventAtTheEnd(env, s, ops);
    RunsStayBalanced(env, s, ops);
    BalancedAtTheEnd(env, s, ops);
    RunsKeepPrograms(env, s, ops);
  }

  lemma {:induction false} ImportsKeepLaws(env: Env, n: NodeView, blocks: seq<Block>)
    requires LawsHold(env, n.state) && LawfulBlocks(env, n, blocks)
    ensures LawsHold(env, ImportAll(env, n, blocks).node.state)
    decreases |blocks|
  {
    hide Import, LawsHold, Run, BlockOps, LawfulRun;
    if blocks != [] {
      var r := Import(env, n, blocks[0]);
      if r.result.Ok? {
        ImportIsRun(env, n, blocks[0]);
        RunKeepsLaws(env, n.state, BlockOps(blocks[0]));
        ImportsKeepLaws(env, r.view, blocks[1..]);
      } else {
        RefusedImport(env, n, blocks[0]);
      }
    }
  }

  lemma RefusedImport(env: Env, n: NodeView, b: Block)
    ensures Import(env, n, b).result.Err? ==> Import(env, n, b).view == n
  {
    hide ReplayBlock, CheckHeader, CheckRoots, RemoveIds, BlockIds, Extended;
  }

  /** Whatever blocks a fresh node imports: every token's holdings add up to its supply, the reserve covers all
      wrapped USDC and twice the backed MNA, and open and closed programs are apart. */
  lemma ImportedChainsAreLawful(env: Env, genesis: GenesisConfig, n: NodeView, blocks: seq<Block>)
    requires InitialState(genesis) == Some(n.state) && LawfulBlocks(env, n, blocks)
    ensures LawsHold(env, ImportAll(env, n, blocks).node.state)
  {
    var accounts := AllocatedAccounts(genesis.allocations);
    GenesisIsSolvent(genesis.chainId, genesis.feeMinimum, accounts);
    GenesisIsBalanced(genesis.chainId, genesis.feeMinimum, accounts);
    GenesisHasNoPrograms(env, genesis.chainId, genesis.feeMinimum, accounts);
    hide ImportAll, LawfulBlocks, Solvent, Balanced, ProgramsSound;
    ImportsKeepLaws(env, n, blocks);
  }
}
