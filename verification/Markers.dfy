/** The finality markers that honest nodes keep in their stores agree as well. */
module Markers {
  import opened Wrappers
  import opened Core
  import opened Ledger
  import opened Genesis
  import opened Storage
  import opened Consensus
  import opened Nodes
  import opened Chain
  import opened Network
  import opened Agreement

  predicate SameMarker(n: NodeView, m: NodeView) {
    m.disk.meta.finalizedHeight == n.disk.meta.finalizedHeight && m.disk.meta.finalizedHash == n.disk.meta.finalizedHash
  }

  /** A stored marker is still at genesis, or it is where one of the node's certificates put it. */
  ghost predicate MarkerCertified(net: Net, i: nat)
    requires i in net.peers
  {
    var m := net.peers[i].node.disk.meta;
    && m.finalizedHeight.Some?
    && (m.finalizedHeight.value == 0
        || (exists c :: c in net.final && c.peer == i
                        && c.height == m.finalizedHeight.value && m.finalizedHash == Some(c.hash)))
  }

  ghost predicate MarkersCertified(net: Net) {
    forall i | i in net.peers :: MarkerCertified(net, i)
  }

  lemma EventKeepsMarker(env: Env, n: NodeView, e: Event)
    requires ChainOk(env, n) && !e.Counted?
    ensures SameMarker(n, NodeStep(env, n, e))
  {
    hide ChainOk, ReplayBlock, Build, Seal, CheckHeader, CheckRoots, RemoveIds, BlockIds, Indexed, Submit, Open,
         CreditDevnet,
         Unstored, IsExpectedProposer;
    match e
    case Submitted(op) => SubmitKeepsChain(env, n, op);
    case Restarted => RestartLosesOnlyPools(env, n);
    case _ =>
  }

  lemma {:induction false} ImportsKeepMarker(env: Env, n: NodeView, blocks: seq<Block>)
    requires HeadersHashApart(env) && ChainOk(env, n)
    ensures SameMarker(n, ImportAll(env, n, blocks).node)
    decreases |blocks|
  {
    hide ChainOk, Import, Grows;
    if blocks != [] {
      EventKeepsMarker(env, n, Imported(blocks[0]));
      ImportStep(env, n, blocks[0]);
      if Import(env, n, blocks[0]).result.Ok? {
        ImportsKeepMarker(env, Import(env, n, blocks[0]).view, blocks[1..]);
      }
    }
  }

  /** Counting a vote moves the marker only together with a new certificate for where it went. */
  lemma VoteMovesMarker(env: Env, i: nat, p: Peer, v: Vote)
    requires ChainOk(env, p.node)
    requires SlotOfBallot(Cast(env, BallotFor(p, v), KeysOf(p.node.genesis.validators), v).ballot) == SlotOf(v)
    ensures var q, m := OnVote(env, p, v).peer.node, OnVote(env, p, v).peer.node.disk.meta;
            SameMarker(p.node, q)
            || (exists c :: c in NewCertificates(env, i, p, v) && c.peer == i
                            && m.finalizedHeight == Some(c.height) && m.finalizedHash == Some(c.hash))
  {
    hide Linked, KeysOf, StartsAt, IsQuorum, VotesValid, BallotFor, Cast;
    var b := Cast(env, BallotFor(p, v), KeysOf(p.node.genesis.validators), v).ballot;
    if !SameMarker(p.node, OnVote(env, p, v).peer.node) {
      var c := Certificate(i, v.height, v.blockHash, b.votes.Keys);
      assert c in NewCertificates(env, i, p, v);
    }
  }

  lemma OthersKeepMarkers(net: Net, i: nat, p: Peer, votes: set<Vote>, certificates: set<Certificate>)
    requires MarkersCertified(net) && i in net.peers
    requires SameMarker(net.peers[i].node, p.node)
             || exists c :: c in certificates && c.peer == i && p.node.disk.meta.finalizedHeight == Some(c.height)
                            && p.node.disk.meta.finalizedHash == Some(c.hash)
    ensures MarkersCertified(Updated(net, i, p, votes, certificates))
  {
    var net' := Updated(net, i, p, votes, certificates);
    forall j | j in net'.peers ensures MarkerCertified(net', j) {
      assert MarkerCertified(net, j);
    }
  }

  lemma CastKeepsSlot(env: Env, genesis: GenesisConfig, net: Net, i: nat, v: Vote)
    requires NetOk(env, genesis, net) && i in net.peers
    ensures SlotOfBallot(Cast(env, BallotFor(net.peers[i], v), KeysOf(genesis.validators), v).ballot) == SlotOf(v)
  {
    PeerFacts(env, genesis, net, i);
    hide NetOk, ChainOk, KeysOf, BallotSound, IsHonest, ValidateVote;
  }

  lemma MoveKeepsMarkers(env: Env, genesis: GenesisConfig, net: Net, m: Move)
    requires HeadersHashApart(env) && NetOk(env, genesis, net) && Possible(env, net, m) && MarkersCertified(net)
    ensures MarkersCertified(Next(env, net, m))
  {
    PossibleMover(env, net, m);
    var p := net.peers[m.i];
    PeerFacts(env, genesis, net, m.i);
    hide NetOk, ChainOk, MarkersCertified, SameMarker, NodeStep, OnBlocks, OnVote, NewCertificates, KeysOf,
         BallotHonest, Cast, VotesIn;
    match m
    case Act(i, e) =>
      EventKeepsMarker(env, p.node, e);
      OthersKeepMarkers(net, i, AfterEvent(env, p, e), {}, {});
    case Deliver(i, message) =>
      match message {
        case GetBlocks(from, to) => AskingKeeps(env, net, i, from, to);
        case Blocks(blocks) =>
          ImportsKeepMarker(env, p.node, blocks);
          OnBlocksShape(env, p, blocks);
          OthersKeepMarkers(net, i, OnBlocks(env, p, blocks).peer, NewVotes(OnBlocks(env, p, blocks)), {});
        case VoteMessage(v) =>
          CastKeepsSlot(env, genesis, net, i, v);
          VoteMovesMarker(env, i, p, v);
          OthersSendNoVotes(env, p, message);
          OthersKeepMarkers(net, i, OnVote(env, p, v).peer, {}, NewCertificates(env, i, p, v));
      }
  }

  lemma {:induction false} RunKeepsMarkers(env: Env, genesis: GenesisConfig, net: Net, moves: seq<Move>)
    requires HeadersHashApart(env) && NetOk(env, genesis, net) && MarkersCertified(net) && PossibleRun(env, net, moves)
    ensures MarkersCertified(After(env, net, moves))
    decreases |moves|
  {
    hide NetOk, Next, MarkersCertified;
    if moves != [] {
      MoveKeepsMarkers(env, genesis, net, moves[0]);
      NextKeeps(env, genesis, net, moves[0]);
      RunKeepsMarkers(env, genesis, Next(env, net, moves[0]), moves[1..]);
    }
  }

  lemma StartHasMarkers(env: Env, genesis: GenesisConfig, net: Net)
    requires Start(env, genesis, net)
    ensures MarkersCertified(net)
  {
    FreshMarker(env, genesis);
    hide Open, InitialState;
  }

  lemma FreshMarker(env: Env, genesis: GenesisConfig)
    ensures var r := Open(env, genesis, EMPTY_DISK).result; r.Ok? ==> r.value.disk.meta.finalizedHeight == Some(0)
  {
    hide InitialState, GenesisBlock;
  }

  /** At the bottom every honest chain has the genesis block. */
  lemma SameGenesisBlock(env: Env, n: NodeView, m: NodeView)
    requires ChainOk(env, n) && ChainOk(env, m) && n.genesis == m.genesis
    ensures 0 in n.disk.heights && 0 in m.disk.heights && n.disk.heights[0] == m.disk.heights[0]
  {
    hide Linked;
  }

  /** In every run of the network, if one honest node's stored marker is not above another's, the other has the first
      one's finalised block on its chain; equal heights mean the same block. */
  lemma StoredMarkersAgree(env: Env, genesis: GenesisConfig, start: Net, moves: seq<Move>, i: nat, j: nat)
    requires HeadersHashApart(env) && Start(env, genesis, start) && FewFaulty(genesis, start)
             && PossibleRun(env, start, moves)
    requires var net := After(env, start, moves); i in net.peers && j in net.peers
    ensures var net := After(env, start, moves);
            var a, b := net.peers[i].node.disk.meta, net.peers[j].node.disk.meta;
            && a.finalizedHeight.Some? && a.finalizedHash.Some? && b.finalizedHeight.Some?
            && (a.finalizedHeight.value <= b.finalizedHeight.value ==>
                  Holds(net.peers[j].node, a.finalizedHeight.value, a.finalizedHash.value))
  {
    hide ChainOk, NetOk, Start, PossibleRun, After, FewFaulty, IsHonest, KeysOf, BallotHonest;
    var net := After(env, start, moves);
    StartIsOk(env, genesis, start);
    RunKeeps(env, genesis, start, moves);
    StartHasMarkers(env, genesis, start);
    RunKeepsMarkers(env, genesis, start, moves);
    PeerFacts(env, genesis, net, i);
    PeerFacts(env, genesis, net, j);
    var n, m := net.peers[i].node, net.peers[j].node;
    SameGenesisBlock(env, n, m);
    MarkerIsHeld(env, n);
    MarkerIsHeld(env, m);
    assert MarkerCertified(net, i) && MarkerCertified(net, j);
    var low, high := n.disk.meta.finalizedHeight.value, m.disk.meta.finalizedHeight.value;
    if 0 < low <= high {
      var c :| c in net.final && c.peer == i && c.height == low && n.disk.meta.finalizedHash == Some(c.hash);
      var d :| d in net.final && d.peer == j && d.height == high;
      HonestNodesAgree(env, genesis, start, moves, c, d);
    }
  }

  lemma MarkerIsHeld(env: Env, n: NodeView)
    requires ChainOk(env, n)
    ensures var m := n.disk.meta;
            m.finalizedHeight.Some? && m.finalizedHash.Some? && Holds(n, m.finalizedHeight.value, m.finalizedHash.value)
  {
    hide Linked, StartsAt;
  }
}
