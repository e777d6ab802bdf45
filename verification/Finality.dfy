/** When a quorum of votes for the latest block finalises it. Votes are counted in slots, and a slot is opened by the
    first vote that names it. */
module Finality {
  import opened Wrappers
  import opened Core
  import opened Consensus
  import opened Nodes
  import opened Chain
  import opened Network
  import opened Agreement

  /** Votes that arrive one after the other, over any connections: a refused vote closes its own connection only. */
  function DeliverAll(env: Env, p: Peer, votes: seq<Vote>): Peer
    decreases |votes|
  {
    if votes == [] then p else DeliverAll(env, OnVote(env, p, votes[0]).peer, votes[1..])
  }

  function Members(n: NodeView): set<PublicKey> {
    KeysOf(n.genesis.validators)
  }

  /** Where votes of one round for the latest block are counted. */
  function LatestSlot(env: Env, n: NodeView, round: nat): Slot {
    (n.latest.header.height, env.blockId(n.latest.header), round)
  }

  predicate ValidVotes(env: Env, n: NodeView, round: nat, votes: seq<Vote>) {
    forall i :: 0 <= i < |votes| ==>
      ValidateVote(env, Members(n), votes[i], n.genesis.chainId, n.latest.header.height, round,
                   env.blockId(n.latest.header)).Ok?
  }

  function Voters(votes: seq<Vote>): set<PublicKey> {
    set v | v in votes :: v.validator
  }

  /** Who has been counted in a slot. */
  function Counted(p: Peer, slot: Slot): set<PublicKey> {
    if slot in p.ballots then p.ballots[slot].votes.Keys else {}
  }

  /** Nobody opened the slot, or somebody did with a vote that names the right chain. */
  predicate OpenedRight(p: Peer, slot: Slot) {
    slot in p.ballots ==> p.ballots[slot].chainId == p.node.genesis.chainId
  }

  /** A ballot counts what its slot says, soundly. */
  ghost predicate SlotSound(env: Env, p: Peer, slot: Slot) {
    slot in p.ballots ==>
      var b := p.ballots[slot];
      (b.height, b.blockHash, b.round) == slot && BallotSound(env, b, Members(p.node))
  }

  predicate Finalised(env: Env, n: NodeView) {
    && n.disk.meta.finalizedHeight == Some(n.latest.header.height)
    && n.disk.meta.finalizedHash == Some(env.blockId(n.latest.header))
  }

  /** Voting moves nothing but the marker. */
  predicate SameChain(n: NodeView, m: NodeView) {
    m == n.(disk := n.disk.(meta := m.disk.meta))
  }

  /** The latest block is stored and the marker is not above it. */
  predicate CanFinalise(env: Env, n: NodeView) {
    var hash := env.blockId(n.latest.header);
    && hash in n.disk.blocks && n.disk.blocks[hash].header.height == n.latest.header.height
    && n.disk.meta.finalizedHeight.Some? && n.disk.meta.finalizedHeight.value <= n.latest.header.height
  }

  lemma ChainCanFinalise(env: Env, n: NodeView)
    requires ChainOk(env, n)
    ensures CanFinalise(env, n)
  {
    hide StartsAt;
    LatestIsLinked(env, n);
  }

  lemma VoteOfSlot(env: Env, n: NodeView, round: nat, v: Vote)
    requires ValidVotes(env, n, round, [v])
    ensures SlotOf(v) == LatestSlot(env, n, round) && v.chainId == n.genesis.chainId
  {
    assert [v][0] == v;
  }

  lemma FirstIsValid(env: Env, n: NodeView, round: nat, votes: seq<Vote>)
    requires ValidVotes(env, n, round, votes) && votes != []
    ensures ValidVotes(env, n, round, [votes[0]]) && ValidVotes(env, n, round, votes[1..])
  {
    hide ValidateVote;
  }

  lemma VotersSplit(votes: seq<Vote>)
    requires votes != []
    ensures Voters(votes) == {votes[0].validator} + Voters(votes[1..])
  {
    assert votes == [votes[0]] + votes[1..];
  }

  /** A vote that is refused, or counted already, leaves the node and the slot as they were. */
  lemma VoteIgnored(env: Env, p: Peer, round: nat, v: Vote)
    requires ValidVotes(env, p.node, round, [v])
    requires var slot := LatestSlot(env, p.node, round);
             !OpenedRight(p, slot) || v.validator in Counted(p, slot)
    ensures var q := OnVote(env, p, v).peer;
            q.node == p.node && q.ballots == p.ballots
  {
    VoteOfSlot(env, p.node, round, v);
  }

  lemma {:induction false} AllIgnored(env: Env, p: Peer, round: nat, votes: seq<Vote>)
    requires ValidVotes(env, p.node, round, votes)
    requires var slot := LatestSlot(env, p.node, round);
             !OpenedRight(p, slot) || Voters(votes) <= Counted(p, slot)
    ensures DeliverAll(env, p, votes).node == p.node
    decreases |votes|
  {
    hide OnVote, ValidVotes, OpenedRight, Counted, Voters;
    if votes != [] {
      FirstIsValid(env, p.node, round, votes);
      VotersSplit(votes);
      VoteIgnored(env, p, round, votes[0]);
      SameSlot(env, p, OnVote(env, p, votes[0]).peer, LatestSlot(env, p.node, round));
      AllIgnored(env, OnVote(env, p, votes[0]).peer, round, votes[1..]);
    }
  }

  lemma NewVoteIsCast(env: Env, p: Peer, round: nat, v: Vote)
    requires ValidVotes(env, p.node, round, [v])
    requires var slot := LatestSlot(env, p.node, round);
             OpenedRight(p, slot) && SlotSound(env, p, slot) && v.validator !in Counted(p, slot)
    ensures var cast := Cast(env, BallotFor(p, v), Members(p.node), v);
            && cast.result.Ok? && cast.ballot.chainId == p.node.genesis.chainId
            && SlotOf(v) == (cast.ballot.height, cast.ballot.blockHash, cast.ballot.round)
            && BallotSound(env, cast.ballot, Members(p.node))
            && cast.ballot.votes.Keys == Counted(p, SlotOf(v)) + {v.validator}
  {
    hide ValidateVote, IsQuorum;
    assert [v][0] == v;
    VoteOfSlot(env, p.node, round, v);
    CastKeepsSound(env, BallotFor(p, v), Members(p.node), v);
  }

  /** What the named signer has put a valid signature under. */
  predicate SignsFor(env: Env, v: Vote, signer: PublicKey, chainId: string, height: nat, round: nat, hash: Hash) {
    && v.validator == signer && v.version == 1 && env.voteSigned(v)
    && v.chainId == chainId && v.height == height && v.round == round && v.blockHash == hash
  }

  /** Two thirds of the members have signed for the latest block of this chain, each vote filed under its signer. */
  predicate CertifiesLatest(env: Env, n: NodeView, b: Ballot) {
    && b.height == n.latest.header.height && b.blockHash == env.blockId(n.latest.header)
    && IsQuorum(|Members(n)|, |b.votes|) && b.votes.Keys <= Members(n)
    && forall k | k in b.votes :: SignsFor(env, b.votes[k], k, n.genesis.chainId, b.height, b.round, b.blockHash)
  }

  /** Ballots that arrive from elsewhere may be for any block and hold anything: one filed under its signers moves the
      marker if and only if it certifies the latest block, and is otherwise refused without effect. */
  lemma FinalisedIsCertified(env: Env, n: NodeView, b: Ballot)
    requires CanFinalise(env, n) && forall k | k in b.votes :: b.votes[k].validator == k
    ensures var f := FinalizeVotes(env, n, b);
            && (f.result.Ok? <==> CertifiesLatest(env, n, b))
            && (f.result.Ok? ==> f.result.value == b.height && Finalised(env, f.view) && SameChain(n, f.view))
            && (f.result.Err? ==> f.view == n)
  {
    hide IsQuorum;
    if CertifiesLatest(env, n, b) {
      forall k | k in b.votes
        ensures ValidateVote(env, Members(n), b.votes[k], n.genesis.chainId, b.height, b.round, b.blockHash).Ok?
      {
        assert SignsFor(env, b.votes[k], k, n.genesis.chainId, b.height, b.round, b.blockHash);
      }
      assert VotesValid(env, n.genesis, b, b.blockHash);
    }
    if FinalizeVotes(env, n, b).result.Ok? {
      forall k | k in b.votes
        ensures k in Members(n) && SignsFor(env, b.votes[k], k, n.genesis.chainId, b.height, b.round, b.blockHash)
      {
        assert ValidateVote(env, Members(n), b.votes[k], n.genesis.chainId, b.height, b.round, b.blockHash).Ok?;
      }
    }
  }

  /** A sound quorum for the latest block moves the marker onto it, and nothing else. */
  lemma QuorumMovesMarker(env: Env, n: NodeView, b: Ballot)
    requires CanFinalise(env, n) && BallotSound(env, b, Members(n)) && b.chainId == n.genesis.chainId
    requires b.height == n.latest.header.height && b.blockHash == env.blockId(n.latest.header)
    requires IsQuorum(|Members(n)|, |b.votes|)
    ensures var m := FinalizeVotes(env, n, b).view;
            SameChain(n, m) && CanFinalise(env, m) && Finalised(env, m)
  {
    hide ValidateVote, IsQuorum;
  }

  /** A valid vote that is new is counted; if that makes a quorum, the block is finalised. */
  lemma NewVoteCounts(env: Env, p: Peer, round: nat, v: Vote)
    requires ValidVotes(env, p.node, round, [v]) && CanFinalise(env, p.node)
    requires var slot := LatestSlot(env, p.node, round);
             OpenedRight(p, slot) && SlotSound(env, p, slot) && v.validator !in Counted(p, slot)
    ensures var slot, q := LatestSlot(env, p.node, round), OnVote(env, p, v).peer;
            && OpenedRight(q, slot) && SlotSound(env, q, slot) && Counted(q, slot) == Counted(p, slot) + {v.validator}
            && SameChain(p.node, q.node) && CanFinalise(env, q.node)
            && (if IsQuorum(|Members(p.node)|, |Counted(q, slot)|) then Finalised(env, q.node) else q.node == p.node)
  {
    hide ValidateVote, IsQuorum, FinalizeVotes, CanFinalise, Finalised, BallotSound;
    VoteOfSlot(env, p.node, round, v);
    NewVoteIsCast(env, p, round, v);
    var cast := Cast(env, BallotFor(p, v), Members(p.node), v);
    assert |cast.ballot.votes| == |cast.ballot.votes.Keys|;
    if IsQuorum(|Members(p.node)|, |cast.ballot.votes|) {
      QuorumMovesMarker(env, p.node, cast.ballot);
    }
  }

  /** Once finalised, more votes for the same block keep it so. */
  lemma {:induction false} FinalisedStays(env: Env, p: Peer, round: nat, votes: seq<Vote>)
    requires ValidVotes(env, p.node, round, votes) && CanFinalise(env, p.node) && Finalised(env, p.node)
    requires var slot := LatestSlot(env, p.node, round); OpenedRight(p, slot) && SlotSound(env, p, slot)
    ensures Finalised(env, DeliverAll(env, p, votes).node)
    ensures DeliverAll(env, p, votes).node.latest == p.node.latest
    decreases |votes|
  {
    hide OnVote, ValidVotes, OpenedRight, SlotSound, IsQuorum;
    if votes != [] {
      var slot, q := LatestSlot(env, p.node, round), OnVote(env, p, votes[0]).peer;
      FirstIsValid(env, p.node, round, votes);
      if votes[0].validator in Counted(p, slot) {
        VoteIgnored(env, p, round, votes[0]);
        SameSlot(env, p, q, slot);
      } else {
        NewVoteCounts(env, p, round, votes[0]);
      }
      SameValid(env, p.node, q.node, round, votes[1..]);
      FinalisedStays(env, q, round, votes[1..]);
    }
  }

  lemma SameSlot(env: Env, p: Peer, q: Peer, slot: Slot)
    requires q.node == p.node && q.ballots == p.ballots
    ensures OpenedRight(q, slot) == OpenedRight(p, slot) && SlotSound(env, q, slot) == SlotSound(env, p, slot)
    ensures Counted(q, slot) == Counted(p, slot)
  {
  }

  lemma SameValid(env: Env, n: NodeView, m: NodeView, round: nat, votes: seq<Vote>)
    requires SameChain(n, m)
    ensures ValidVotes(env, m, round, votes) == ValidVotes(env, n, round, votes)
  {
    hide ValidateVote;
  }

  /** While somebody is still to be counted and everybody together is a quorum, the last new vote finalises. */
  lemma {:induction false} QuorumIsReached(env: Env, p: Peer, round: nat, votes: seq<Vote>)
    requires ValidVotes(env, p.node, round, votes) && CanFinalise(env, p.node)
    requires var slot := LatestSlot(env, p.node, round);
             && OpenedRight(p, slot) && SlotSound(env, p, slot) && !(Voters(votes) <= Counted(p, slot))
             && IsQuorum(|Members(p.node)|, |Counted(p, slot) + Voters(votes)|)
    ensures Finalised(env, DeliverAll(env, p, votes).node) && DeliverAll(env, p, votes).node.latest == p.node.latest
    decreases |votes|
  {
    hide OnVote, ValidVotes, OpenedRight, SlotSound, IsQuorum, CanFinalise, Counted, Voters, Finalised;
    assert votes != [] by { NobodyVotes(votes); }
    var slot, q, rest := LatestSlot(env, p.node, round), OnVote(env, p, votes[0]).peer, votes[1..];
    FirstIsValid(env, p.node, round, votes);
    VotersSplit(votes);
    if votes[0].validator in Counted(p, slot) {
      VoteIgnored(env, p, round, votes[0]);
      SameSlot(env, p, q, slot);
      assert Counted(p, slot) + Voters(votes) == Counted(q, slot) + Voters(rest);
      QuorumIsReached(env, q, round, rest);
    } else {
      NewVoteCounts(env, p, round, votes[0]);
      SameValid(env, p.node, q.node, round, rest);
      assert Counted(p, slot) + Voters(votes) == Counted(q, slot) + Voters(rest);
      if IsQuorum(|Members(p.node)|, |Counted(q, slot)|) {
        FinalisedStays(env, q, round, rest);
      } else {
        assert Voters(rest) <= Counted(q, slot) ==> Counted(q, slot) + Voters(rest) == Counted(q, slot);
        QuorumIsReached(env, q, round, rest);
      }
    }
  }

  lemma NobodyVotes(votes: seq<Vote>)
    ensures votes == [] ==> Voters(votes) == {}
  {
  }

  lemma MoreIsQuorum(members: nat, votes: nat, more: nat)
    requires IsQuorum(members, votes) && votes <= more
    ensures IsQuorum(members, more)
  {
  }

  /** Valid votes by a quorum, delivered to a node whose latest block they are for, finalise it if and only if the slot
      was not opened under another chain id and some vote is not counted already. */
  lemma QuorumFinalisesExactly(env: Env, p: Peer, round: nat, votes: seq<Vote>)
    requires ChainOk(env, p.node) && p.node.disk.meta.finalizedHeight.value < p.node.latest.header.height
    requires SlotSound(env, p, LatestSlot(env, p.node, round))
    requires ValidVotes(env, p.node, round, votes) && IsQuorum(|Members(p.node)|, |Voters(votes)|)
    ensures var slot, q := LatestSlot(env, p.node, round), DeliverAll(env, p, votes);
            && q.node.latest == p.node.latest
            && (Finalised(env, q.node) <==> OpenedRight(p, slot) && !(Voters(votes) <= Counted(p, slot)))
  {
    hide ChainOk, OnVote, ValidVotes, OpenedRight, SlotSound, IsQuorum, Voters, Counted, Members;
    var slot := LatestSlot(env, p.node, round);
    ChainCanFinalise(env, p.node);
    if OpenedRight(p, slot) && !(Voters(votes) <= Counted(p, slot)) {
      SubsetSize(Voters(votes), Counted(p, slot) + Voters(votes));
      MoreIsQuorum(|Members(p.node)|, |Voters(votes)|, |Counted(p, slot) + Voters(votes)|);
      QuorumIsReached(env, p, round, votes);
    } else {
      AllIgnored(env, p, round, votes);
    }
  }

  /** In every state the network reaches, the ballots of honest nodes are sound. */
  lemma SlotsAreSound(env: Env, genesis: GenesisConfig, net: Net, i: nat, slot: Slot)
    requires NetOk(env, genesis, net) && i in net.peers
    ensures ChainOk(env, net.peers[i].node) && SlotSound(env, net.peers[i], slot)
  {
    hide ChainOk, NetOk, KeysOf, BallotSound;
    PeerFacts(env, genesis, net, i);
  }

  /** The same at any honest node in every state that a run of the network reaches. */
  lemma ReachedQuorumFinalises(env: Env, genesis: GenesisConfig, start: Net, moves: seq<Move>, i: nat, round: nat,
      votes: seq<Vote>)
    requires HeadersHashApart(env) && Start(env, genesis, start) && PossibleRun(env, start, moves)
    requires var net := After(env, start, moves);
             && i in net.peers && ValidVotes(env, net.peers[i].node, round, votes)
             && IsQuorum(|Members(net.peers[i].node)|, |Voters(votes)|)
    ensures var p := After(env, start, moves).peers[i];
            var slot, marker := LatestSlot(env, p.node, round), p.node.disk.meta.finalizedHeight;
            && marker.Some?
            && (marker.value < p.node.latest.header.height ==>
                  (Finalised(env, DeliverAll(env, p, votes).node)
                   <==> OpenedRight(p, slot) && !(Voters(votes) <= Counted(p, slot))))
  {
    hide ChainOk, NetOk, Start, PossibleRun, After, ValidVotes, IsQuorum, Members, Voters, OpenedRight, Counted,
         SlotSound, CanFinalise;
    StartIsOk(env, genesis, start);
    RunKeeps(env, genesis, start, moves);
    var net := After(env, start, moves);
    var p := net.peers[i];
    SlotsAreSound(env, genesis, net, i, LatestSlot(env, p.node, round));
    MarkerIsSet(env, p.node);
    if p.node.disk.meta.finalizedHeight.value < p.node.latest.header.height {
      QuorumFinalisesExactly(env, p, round, votes);
    }
  }

  lemma MarkerIsSet(env: Env, n: NodeView)
    requires ChainOk(env, n)
    ensures n.disk.meta.finalizedHeight.Some?
  {
    hide Linked, StartsAt;
  }

  /** One unsigned vote that names another chain is refused, and opens the slot: no valid votes of that round finalise
      the block at this node any more. */
  lemma ForeignVoteBlocksFinality(env: Env, p: Peer, round: nat, foreign: Vote, votes: seq<Vote>)
    requires ChainOk(env, p.node) && p.node.disk.meta.finalizedHeight.value < p.node.latest.header.height
    requires LatestSlot(env, p.node, round) == SlotOf(foreign) && SlotOf(foreign) !in p.ballots
    requires foreign.chainId != p.node.genesis.chainId && !env.voteSigned(foreign)
    requires ValidVotes(env, p.node, round, votes) && IsQuorum(|Members(p.node)|, |Voters(votes)|)
    ensures var refused := OnVote(env, p, foreign);
            && refused.replies == None && refused.peer.node == p.node
            && !Finalised(env, DeliverAll(env, refused.peer, votes).node)
            && Finalised(env, DeliverAll(env, p, votes).node)
  {
    hide ChainOk, ValidVotes, IsQuorum, Voters, Members;
    var q := OnVote(env, p, foreign).peer;
    QuorumFinalisesExactly(env, q, round, votes);
    SomebodyVotes(env, p.node, votes);
    QuorumFinalisesExactly(env, p, round, votes);
  }

  lemma SomebodyVotes(env: Env, n: NodeView, votes: seq<Vote>)
    requires IsQuorum(|Members(n)|, |Voters(votes)|)
    ensures Voters(votes) != {}
  {
  }
}
