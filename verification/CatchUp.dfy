/** Which peers can be caught up with: every peer whose blocks were imported or cleanly produced. */
module CatchUp {
  import opened Wrappers
  import opened Core
  import opened Replay
  import opened Storage
  import opened Consensus
  import opened Nodes
  import opened BlockReplay
  import opened Chain
  import opened Network
  import opened Sync

  /** Nothing a replica could not repeat: no faucet block, and only clean, allowed blocks of its own. */
  predicate Replayable(env: Env, n: NodeView, e: Event) {
    match e
    case Fauceted(a, amount, timestamp) => Faucet(env, n, a, amount, timestamp).result.Err?
    case Produced(proposer, timestamp) =>
      Produce(env, n, proposer, timestamp).result.Ok? ==>
        ProposalAllowed(n, proposer) && Clean(env, n.state, PendingOps(env, n))
    case _ => true
  }

  predicate ReplayableRun(env: Env, n: NodeView, events: seq<Event>)
    decreases |events|
  {
    events != [] ==> Replayable(env, n, events[0]) && ReplayableRun(env, NodeStep(env, n, events[0]), events[1..])
  }

  lemma {:induction false} StoredStays(env: Env, p: NodeView, q: NodeView, from: nat, to: nat)
    requires ChainOk(env, p) && Grows(p, q) && to <= p.latest.header.height
    ensures Stored(q.disk, from, to) == Stored(p.disk, from, to)
    decreases 1 + to - from
  {
    hide StartsAt, Marks;
    if from <= to {
      assert LinkAt(env, p.disk, from);
      StoredStays(env, p, q, from + 1, to);
    }
  }

  lemma BehindStays(f: NodeView, p: NodeView, q: NodeView)
    requires Behind(f, p) && Grows(p, q) && p.latest.header.height <= q.latest.header.height
    ensures Behind(f, q)
  {
  }

  lemma SameTopStays(env: Env, f: NodeView, p: NodeView, q: NodeView)
    requires ChainOk(env, p) && Grows(p, q) && q.latest == p.latest && q.state == p.state
    requires Behind(f, p) && Importable(env, f, p)
    ensures Behind(f, q) && Importable(env, f, q)
  {
    hide ChainOk, ImportAll, Stored, Grows;
    StoredStays(env, p, q, f.latest.header.height + 1, p.latest.header.height);
    BehindStays(f, p, q);
  }

  /** The follower's import of everything so far: a node on the same chain as the peer. */
  lemma CaughtUpCopy(env: Env, f: NodeView, p: NodeView) returns (g: NodeView)
    requires HeadersHashApart(env) && ChainOk(env, f) && ChainOk(env, p) && f.genesis == p.genesis
    requires Behind(f, p) && Importable(env, f, p)
    ensures g == ImportAll(env, f, Above(f, p)).node && SameChain(g, p) && ChainOk(env, g)
  {
    hide ChainOk, Behind, ImportAll, SameChain, Stored;
    BehindIsLower(f, p);
    g := ImportAll(env, f, Above(f, p)).node;
    BatchImports(env, f, p, p.latest.header.height);
    CaughtUp(env, g, p);
  }

  lemma ImportDependsOnChain(env: Env, a: NodeView, b: NodeView, x: Block)
    requires SameChain(a, b)
    ensures Import(env, a, x).result == Import(env, b, x).result
    ensures Import(env, a, x).view.state == Import(env, b, x).view.state
  {
    hide ReplayBlock, CheckProposer, CheckRoots, BlockIds, RemoveIds, Indexed;
  }

  /** One block more on the peer, which a copy of the peer can import. */
  lemma OneMore(env: Env, f: NodeView, p: NodeView, q: NodeView, g: NodeView)
    requires ChainOk(env, p) && ChainOk(env, q) && Grows(p, q) && q.latest.header.height == p.latest.header.height + 1
    requires Behind(f, p) && Importable(env, f, p) && g == ImportAll(env, f, Above(f, p)).node
    requires Import(env, g, q.latest).result.Ok? && Import(env, g, q.latest).view.state == q.state
    ensures Behind(f, q) && Importable(env, f, q)
  {
    hide ChainOk, Grows, Import;
    var from, top := f.latest.header.height + 1, p.latest.header.height;
    BehindIsLower(f, p);
    StoredStays(env, p, q, from, top);
    StoredSplit(q.disk, from, top, top + 1);
    LatestIsStored(env, q);
    ImportAllAppend(env, f, Above(f, p), [q.latest]);
    assert ImportAll(env, g, [q.latest]) == Intake(Import(env, g, q.latest).view, true);
    hide ImportAll, Stored;
    BehindStays(f, p, q);
  }

  lemma LatestIsStored(env: Env, n: NodeView)
    requires ChainOk(env, n)
    ensures var top := n.latest.header.height; Stored(n.disk, top, top) == [n.latest]
  {
    hide StartsAt, Linked;
    assert Stored(n.disk, n.latest.header.height + 1, n.latest.header.height) == [];
  }

  lemma ProduceStaysImportable(env: Env, f: NodeView, p: NodeView, proposer: Option<PublicKey>, timestamp: nat)
    requires HeadersHashApart(env) && Metered(env) && HeaderSignaturesVerify(env)
    requires ChainOk(env, f) && ChainOk(env, p) && f.genesis == p.genesis && PoolsDistinct(env, p.pools)
    requires Behind(f, p) && Importable(env, f, p) && Replayable(env, p, Produced(proposer, timestamp))
    ensures var q := Produce(env, p, proposer, timestamp).view; Behind(f, q) && Importable(env, f, q)
  {
    hide ChainOk, Behind, Importable, PoolsDistinct, Produce, Import, Clean, PendingOps, HeaderSignaturesVerify, Grows;
    var r := Produce(env, p, proposer, timestamp);
    ProduceStep(env, p, proposer, timestamp);
    if r.result.Ok? {
      var g := CaughtUpCopy(env, f, p);
      ProducedFollows(env, p, proposer, timestamp);
      TopOf(env, g);
      NextBlockIsNew(env, g.disk, g.latest.header.height, r.result.value.header);
      ImportReproduces(env, p, g, proposer, timestamp);
      hide Above;
      OneMore(env, f, p, r.view, g);
    } else {
      RefusedProposal(env, p, proposer, timestamp);
    }
  }

  lemma TopOf(env: Env, n: NodeView)
    requires ChainOk(env, n)
    ensures Linked(env, n.disk, n.latest.header.height)
  {
    hide Linked, Marks, StartsAt;
  }

  lemma RefusedProposal(env: Env, n: NodeView, proposer: Option<PublicKey>, timestamp: nat)
    ensures Produce(env, n, proposer, timestamp).result.Err? ==> Produce(env, n, proposer, timestamp).view == n
  {
    hide Build, Seal, Unstored;
  }

  lemma ImportStaysImportable(env: Env, f: NodeView, p: NodeView, b: Block)
    requires HeadersHashApart(env) && ChainOk(env, f) && ChainOk(env, p) && f.genesis == p.genesis
    requires Behind(f, p) && Importable(env, f, p)
    ensures var q := Import(env, p, b).view; Behind(f, q) && Importable(env, f, q)
  {
    hide ChainOk, Behind, Importable, Import, Grows, Above;
    var r := Import(env, p, b);
    ImportStep(env, p, b);
    ImportedFollows(env, p, b);
    if r.result.Ok? && env.blockId(b.header) !in p.disk.blocks {
      var g := CaughtUpCopy(env, f, p);
      ImportDependsOnChain(env, g, p, b);
      OneMore(env, f, p, r.view, g);
    }
  }

  lemma CountedKeepsTop(env: Env, n: NodeView, e: Event)
    requires ChainOk(env, n) && (e.Counted? || e.Submitted? || e.Restarted?)
    ensures NodeStep(env, n, e).latest == n.latest && NodeStep(env, n, e).state == n.state
  {
    hide ChainOk, VotesValid, IsQuorum;
    match e
    case Counted(ballot) =>
    case Submitted(op) => SubmitKeepsChain(env, n, op);
    case Restarted => RestartLosesOnlyPools(env, n);
  }

  /** Each replayable step of the peer keeps its chain importable by a follower. */
  lemma StepStaysImportable(env: Env, f: NodeView, p: NodeView, e: Event)
    requires HeadersHashApart(env) && Metered(env) && HeaderSignaturesVerify(env)
    requires ChainOk(env, f) && ChainOk(env, p) && f.genesis == p.genesis && PoolsDistinct(env, p.pools)
    requires Behind(f, p) && Importable(env, f, p) && Replayable(env, p, e)
    ensures Behind(f, NodeStep(env, p, e)) && Importable(env, f, NodeStep(env, p, e))
  {
    hide ChainOk, Behind, Importable, PoolsDistinct, Produce, Import, Grows, HeaderSignaturesVerify, Submit,
         FinalizeVotes, Open;
    match e
    case Produced(proposer, timestamp) => ProduceStaysImportable(env, f, p, proposer, timestamp);
    case Imported(b) => ImportStaysImportable(env, f, p, b);
    case Fauceted(a, amount, timestamp) => FaucetFollows(env, p, a, amount, timestamp);
    case _ =>
      CountedKeepsTop(env, p, e);
      StepKeepsChain(env, p, e);
      SameTopStays(env, f, p, NodeStep(env, p, e));
  }

  lemma {:induction false} RunStaysImportable(env: Env, f: NodeView, p: NodeView, events: seq<Event>)
    requires HeadersHashApart(env) && Metered(env) && HeaderSignaturesVerify(env)
    requires ChainOk(env, f) && ChainOk(env, p) && f.genesis == p.genesis && PoolsDistinct(env, p.pools)
    requires Behind(f, p) && Importable(env, f, p) && ReplayableRun(env, p, events)
    ensures var q := NodeRun(env, p, events);
            ChainOk(env, q) && q.genesis == f.genesis && Behind(f, q) && Importable(env, f, q)
    decreases |events|
  {
    hide ChainOk, Behind, Importable, PoolsDistinct, NodeStep, Replayable, HeaderSignaturesVerify;
    if events != [] {
      StepKeepsChain(env, p, events[0]);
      StepKeepsPools(env, p, events[0]);
      SameGenesis(p, NodeStep(env, p, events[0]));
      StepStaysImportable(env, f, p, events[0]);
      hide Grows;
      RunStaysImportable(env, f, NodeStep(env, p, events[0]), events[1..]);
    }
  }

  lemma TogetherIsBehind(env: Env, f: NodeView, p: NodeView)
    requires SameChain(f, p)
    ensures Behind(f, p) && Importable(env, f, p)
  {
    assert Above(f, p) == [];
  }

  /** From a common point a peer takes any number of replayable steps; a follower that then asks it for blocks ends
      with the same chain and the same state. */
  lemma FollowerCatchesUp(env: Env, f: Peer, p0: NodeView, p: Peer, events: seq<Event>)
    requires HeadersHashApart(env) && Metered(env) && HeaderSignaturesVerify(env)
    requires ChainOk(env, f.node) && ChainOk(env, p0) && PoolsDistinct(env, p0.pools) && SameChain(f.node, p0)
    requires ReplayableRun(env, p0, events) && p.node == NodeRun(env, p0, events)
    ensures ChainOk(env, p.node)
    ensures var r := Exchange(env, f, p, f.node.latest.header.height + 1); r.done && SameChain(r.follower.node, p.node)
  {
    hide ChainOk, Behind, Importable, PoolsDistinct, NodeRun, ReplayableRun, Exchange, HeaderSignaturesVerify;
    TogetherIsBehind(env, f.node, p0);
    RunStaysImportable(env, f.node, p0, events);
    SyncConverges(env, f, p);
  }
}
