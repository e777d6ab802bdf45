/** Finality across the network: however messages are delayed, repeated, reordered or forged by the faulty
    validators, the blocks that honest nodes finalise lie on one chain. */
module Agreement {
  import opened Wrappers
  import opened Core
  import opened Genesis
  import opened Storage
  import opened Consensus
  import opened Nodes
  import opened Chain
  import opened Network

  /** That a node marked a block as final, and who had signed for it. */
  datatype Certificate = Certificate(peer: nat, height: nat, hash: Hash, signers: set<PublicKey>)

  /** The honest nodes, every vote they have sent, and everything they have finalised. */
  datatype Net = Net(peers: map<nat, Peer>, sent: set<Vote>, final: set<Certificate>)

  datatype Move =
    | Act(i: nat, event: Event)
    | Deliver(i: nat, message: Message)

  ghost predicate IsHonest(net: Net, k: PublicKey) {
    exists i :: i in net.peers && net.peers[i].key == Some(k)
  }

  /** Any message may arrive at any time, except a valid vote in the name of an honest validator that never sent it. */
  ghost predicate Possible(env: Env, net: Net, m: Move) {
    && m.i in net.peers
    && (m.Act? ==> !m.event.Counted?)
    && (m.Deliver? && m.message.VoteMessage? ==>
          var v := m.message.vote; env.voteSigned(v) && IsHonest(net, v.validator) ==> v in net.sent)
  }

  function VotesIn(messages: seq<Message>): set<Vote> {
    set m | m in messages && m.VoteMessage? :: m.vote
  }

  /** A restart forgets the ballots with everything else that was not stored. */
  function AfterEvent(env: Env, p: Peer, e: Event): Peer {
    p.(node := NodeStep(env, p.node, e), ballots := if e.Restarted? then map[] else p.ballots)
  }

  function NewCertificates(env: Env, i: nat, p: Peer, v: Vote): set<Certificate> {
    var cast := Cast(env, BallotFor(p, v), KeysOf(p.node.genesis.validators), v);
    if cast.result.Ok? && IsQuorum(|KeysOf(p.node.genesis.validators)|, |cast.ballot.votes|)
       && FinalizeVotes(env, p.node, cast.ballot).result.Ok?
    then {Certificate(i, v.height, v.blockHash, cast.ballot.votes.Keys)} else {}
  }

  /** One node changes, and votes and certificates are added. */
  function Updated(net: Net, i: nat, p: Peer, votes: set<Vote>, certificates: set<Certificate>): Net {
    Net(net.peers[i := p], net.sent + votes, net.final + certificates)
  }

  function NewVotes(h: Handled): set<Vote> {
    if h.replies.Some? then VotesIn(h.replies.value) else {}
  }

  function Next(env: Env, net: Net, m: Move): Net
    requires m.i in net.peers
  {
    var p := net.peers[m.i];
    match m
    case Act(i, e) => Updated(net, i, AfterEvent(env, p, e), {}, {})
    case Deliver(i, message) =>
      var handled := OnMessage(env, p, message);
      Updated(net, i, handled.peer, NewVotes(handled),
              if message.VoteMessage? then NewCertificates(env, i, p, message.vote) else {})
  }

  /** Only blocks are answered with votes, and serving a range changes nothing. */
  lemma OthersSendNoVotes(env: Env, p: Peer, m: Message)
    requires !m.Blocks?
    ensures NewVotes(OnMessage(env, p, m)) == {}
    ensures m.GetBlocks? ==> OnMessage(env, p, m).peer == p
  {
    hide Cast, FinalizeVotes, CollectBlocks, IsQuorum;
  }

  /* ---------- what every move keeps ---------- */

  ghost predicate Setup(env: Env, genesis: GenesisConfig, net: Net) {
    && (forall i | i in net.peers :: net.peers[i].node.genesis == genesis && ChainOk(env, net.peers[i].node))
    && (forall i, j | i in net.peers && j in net.peers && net.peers[i].key.Some?
      && net.peers[i].key == net.peers[j].key :: i == j)
  }

  /** A vote an honest node may have sent: for a block it holds, at that block's height, in round 0. */
  ghost predicate Backed(net: Net, v: Vote) {
    exists i :: i in net.peers && net.peers[i].key == Some(v.validator) && v.round == 0
      && Holds(net.peers[i].node, v.height, v.blockHash)
  }

  predicate Holds(n: NodeView, height: nat, hash: Hash) {
    height in n.disk.heights && n.disk.heights[height] == hash
  }

  /** A ballot counts valid votes for its own slot; those of honest validators were really sent. */
  ghost predicate BallotHonest(env: Env, net: Net, members: set<PublicKey>, slot: Slot, b: Ballot) {
    && SlotOfBallot(b) == slot
    && BallotSound(env, b, members)
    && forall k | k in b.votes && IsHonest(net, k) :: b.votes[k] in net.sent
  }

  function SlotOfBallot(b: Ballot): Slot {
    (b.height, b.blockHash, b.round)
  }

  ghost predicate SentFor(sent: set<Vote>, k: PublicKey, height: nat, hash: Hash) {
    exists v :: v in sent && v.validator == k && v.height == height && v.blockHash == hash
  }

  ghost predicate Certified(net: Net, members: set<PublicKey>, c: Certificate) {
    && c.peer in net.peers && Holds(net.peers[c.peer].node, c.height, c.hash)
    && c.signers <= members && IsQuorum(|members|, |c.signers|)
    && forall k | k in c.signers && IsHonest(net, k) :: SentFor(net.sent, k, c.height, c.hash)
  }

  ghost predicate NetOk(env: Env, genesis: GenesisConfig, net: Net) {
    var members := KeysOf(genesis.validators);
    && Setup(env, genesis, net)
    && (forall v | v in net.sent :: Backed(net, v))
    && (forall i | i in net.peers :: forall slot | slot in net.peers[i].ballots ::
          BallotHonest(env, net, members, slot, net.peers[i].ballots[slot]))
    && (forall c | c in net.final :: Certified(net, members, c))
  }

  /** The network one move later, as far as the other parts care: same nodes, longer chains, more votes. */
  ghost predicate Extends(net: Net, net': Net) {
    && net'.peers.Keys == net.peers.Keys
    && (forall i | i in net.peers ::
      net'.peers[i].key == net.peers[i].key && Grows(net.peers[i].node, net'.peers[i].node))
    && net.sent <= net'.sent
  }

  lemma HonestStays(net: Net, net': Net, k: PublicKey)
    requires Extends(net, net')
    ensures IsHonest(net, k) <==> IsHonest(net', k)
  {
  }

  lemma BackedStays(net: Net, net': Net, v: Vote)
    requires Extends(net, net') && Backed(net, v)
    ensures Backed(net', v)
  {
    var i :| i in net.peers && net.peers[i].key == Some(v.validator) && v.round == 0
      && Holds(net.peers[i].node, v.height, v.blockHash);
    assert Holds(net'.peers[i].node, v.height, v.blockHash);
  }

  lemma CertifiedStays(net: Net, net': Net, members: set<PublicKey>, c: Certificate)
    requires Extends(net, net') && Certified(net, members, c)
    ensures Certified(net', members, c)
  {
    assert Holds(net'.peers[c.peer].node, c.height, c.hash);
    forall k | k in c.signers && IsHonest(net', k) ensures SentFor(net'.sent, k, c.height, c.hash) {
      HonestStays(net, net', k);
      var v :| v in net.sent && v.validator == k && v.height == c.height && v.blockHash == c.hash;
      assert v in net'.sent;
    }
  }

  lemma BallotStays(env: Env, net: Net, net': Net, members: set<PublicKey>, slot: Slot, b: Ballot)
    requires Extends(net, net') && BallotHonest(env, net, members, slot, b)
    ensures BallotHonest(env, net', members, slot, b)
  {
    hide BallotSound;
    forall k | k in b.votes && IsHonest(net', k) ensures b.votes[k] in net'.sent {
      HonestStays(net, net', k);
    }
  }

  lemma UpdateExtends(net: Net, i: nat, p: Peer, votes: set<Vote>, certificates: set<Certificate>)
    requires i in net.peers && p.key == net.peers[i].key && Grows(net.peers[i].node, p.node)
    ensures Extends(net, Updated(net, i, p, votes, certificates))
  {
    forall j | j in net.peers ensures Grows(net.peers[j].node, net.peers[j].node) {
    }
  }

  lemma PeerFacts(env: Env, genesis: GenesisConfig, net: Net, i: nat)
    requires NetOk(env, genesis, net) && i in net.peers
    ensures net.peers[i].node.genesis == genesis && ChainOk(env, net.peers[i].node)
    ensures forall slot | slot in net.peers[i].ballots ::
              BallotHonest(env, net, KeysOf(genesis.validators), slot, net.peers[i].ballots[slot])
  {
    hide ChainOk, KeysOf, Backed, Certified, BallotHonest;
  }

  lemma SetupStays(env: Env, genesis: GenesisConfig, net: Net, net': Net, i: nat, p: Peer)
    requires Setup(env, genesis, net) && i in net.peers && net'.peers == net.peers[i := p]
    requires p.key == net.peers[i].key && Grows(net.peers[i].node, p.node) && ChainOk(env, p.node)
    ensures Setup(env, genesis, net')
  {
    hide ChainOk;
  }

  /** What is left to show when one node changes: its chain, its own ballots, the new votes and certificates. */
  lemma UpdateKeeps(env: Env, genesis: GenesisConfig, net: Net, i: nat, p: Peer, votes: set<Vote>,
      certificates: set<Certificate>)
    requires NetOk(env, genesis, net) && i in net.peers
    requires p.key == net.peers[i].key && Grows(net.peers[i].node, p.node) && ChainOk(env, p.node)
    requires forall v | v in votes :: Backed(Updated(net, i, p, votes, certificates), v)
    requires forall slot | slot in p.ballots ::
               BallotHonest(env, Updated(net, i, p, votes, certificates), KeysOf(genesis.validators), slot,
                 p.ballots[slot])
    requires forall c | c in certificates ::
             Certified(Updated(net, i, p, votes, certificates), KeysOf(genesis.validators), c)
    ensures NetOk(env, genesis, Updated(net, i, p, votes, certificates))
  {
    hide ChainOk, Backed, Certified, BallotHonest, KeysOf, Grows;
    var members, net' := KeysOf(genesis.validators), Updated(net, i, p, votes, certificates);
    UpdateExtends(net, i, p, votes, certificates);
    SetupStays(env, genesis, net, net', i, p);
    hide Setup, Extends;
    forall v | v in net'.sent ensures Backed(net', v) {
      if v in net.sent { BackedStays(net, net', v); }
    }
    forall c | c in net'.final ensures Certified(net', members, c) {
      if c in net.final { CertifiedStays(net, net', members, c); }
    }
    forall j, slot | j in net'.peers && slot in net'.peers[j].ballots
      ensures BallotHonest(env, net', members, slot, net'.peers[j].ballots[slot])
    {
      if j != i { BallotStays(env, net, net', members, slot, net.peers[j].ballots[slot]); }
    }
  }

  lemma BallotsStay(env: Env, genesis: GenesisConfig, net: Net, net': Net, i: nat)
    requires NetOk(env, genesis, net) && i in net.peers && Extends(net, net')
    ensures forall slot | slot in net.peers[i].ballots ::
              BallotHonest(env, net', KeysOf(genesis.validators), slot, net.peers[i].ballots[slot])
  {
    PeerFacts(env, genesis, net, i);
    hide NetOk, Extends, KeysOf, BallotHonest, ChainOk;
    forall slot | slot in net.peers[i].ballots
      ensures BallotHonest(env, net', KeysOf(genesis.validators), slot, net.peers[i].ballots[slot])
    {
      BallotStays(env, net, net', KeysOf(genesis.validators), slot, net.peers[i].ballots[slot]);
    }
  }

  /* ---------- the three kinds of move ---------- */

  lemma GrowsThrough(env: Env, n: NodeView, m: NodeView, o: NodeView)
    requires ChainOk(env, n) && ChainOk(env, m) && Grows(n, m) && Grows(m, o)
    ensures Grows(n, o)
  {
    hide Linked, StartsAt;
  }

  lemma ImportedIsHeld(env: Env, n: NodeView, b: Block)
    requires HeadersHashApart(env) && ChainOk(env, n) && Import(env, n, b).result.Ok?
    ensures Holds(Import(env, n, b).view, b.header.height, env.blockId(b.header))
  {
    hide Import, StartsAt, Marks;
    var m, hash := Import(env, n, b).view, env.blockId(b.header);
    ImportedFollows(env, n, b);
    ImportStep(env, n, b);
    if hash in n.disk.blocks {
      assert LinkAt(env, m.disk, m.disk.blocks[hash].header.height);
    } else {
      assert LinkAt(env, m.disk, m.latest.header.height);
    }
  }

  lemma GrowsSelf(n: NodeView)
    ensures Grows(n, n)
  {
  }

  lemma HoldsStays(n: NodeView, m: NodeView, height: nat, hash: Hash)
    requires Grows(n, m)
    ensures Holds(n, height, hash) ==> Holds(m, height, hash)
  {
  }

  lemma {:induction false} ImportAllKeeps(env: Env, n: NodeView, blocks: seq<Block>)
    requires HeadersHashApart(env) && ChainOk(env, n)
    ensures var r := ImportAll(env, n, blocks);
            && ChainOk(env, r.node) && Grows(n, r.node)
            && (r.accepted ==> forall i :: 0 <= i < |blocks| ==>
              Holds(r.node, blocks[i].header.height, env.blockId(blocks[i].header)))
    decreases |blocks|
  {
    hide ChainOk, Import, Grows, Holds;
    GrowsSelf(n);
    if blocks != [] {
      var first := blocks[0];
      var r := Import(env, n, first);
      ImportStep(env, n, first);
      if r.result.Ok? {
        ImportedIsHeld(env, n, first);
        ImportAllKeeps(env, r.view, blocks[1..]);
        var end := ImportAll(env, n, blocks);
        GrowsThrough(env, n, r.view, end.node);
        HoldsStays(r.view, end.node, first.header.height, env.blockId(first.header));
        forall i | end.accepted && 0 <= i < |blocks| ensures Holds(end.node, blocks[i].header.height,
            env.blockId(blocks[i].header)) {
          if i > 0 { assert blocks[1..][i - 1] == blocks[i]; }
        }
      }
    }
  }

  lemma ActKeeps(env: Env, genesis: GenesisConfig, net: Net, i: nat, e: Event)
    requires HeadersHashApart(env) && NetOk(env, genesis, net) && i in net.peers
    ensures NetOk(env, genesis, Next(env, net, Act(i, e)))
  {
    hide NodeStep, ChainOk, KeysOf, BallotHonest, Grows, NetOk, Extends;
    PeerFacts(env, genesis, net, i);
    var p := AfterEvent(env, net.peers[i], e);
    StepKeepsChain(env, net.peers[i].node, e);
    UpdateExtends(net, i, p, {}, {});
    BallotsStay(env, genesis, net, Updated(net, i, p, {}, {}), i);
    UpdateKeeps(env, genesis, net, i, p, {}, {});
  }

  lemma NewVotesAreBacked(env: Env, p: Peer, blocks: seq<Block>, v: Vote)
    requires HeadersHashApart(env) && ChainOk(env, p.node)
    requires OnBlocks(env, p, blocks).replies.Some? && v in VotesIn(OnBlocks(env, p, blocks).replies.value)
    ensures p.key == Some(v.validator) && v.round == 0
    ensures Holds(OnBlocks(env, p, blocks).peer.node, v.height, v.blockHash)
  {
    hide ImportAll, ChainOk, Grows, Holds, SignedVote;
    ImportAllKeeps(env, p.node, blocks);
    OnBlocksShape(env, p, blocks);
    var votes := if p.key.Some? then VotesFor(env, p.node.genesis.chainId, blocks, p.key.value) else [];
    assert VoteMessage(v) in AsMessages(votes);
    var i :| 0 <= i < |votes| && votes[i] == v;
    SignedVoteSays(env, p.node.genesis.chainId, blocks[i].header, p.key.value);
  }

  /** A node with a key answers an accepted message with its signed vote for every block in it, and holds the block. */
  lemma EveryBlockIsVotedFor(env: Env, p: Peer, blocks: seq<Block>, i: nat)
    requires HeadersHashApart(env) && ChainOk(env, p.node)
    requires OnBlocks(env, p, blocks).replies.Some? && p.key.Some? && i < |blocks|
    ensures SignedVote(env, p.node.genesis.chainId, blocks[i].header, p.key.value) in NewVotes(OnBlocks(env, p, blocks))
    ensures Holds(OnBlocks(env, p, blocks).peer.node, blocks[i].header.height, env.blockId(blocks[i].header))
  {
    hide ImportAll, ChainOk, Grows, Holds, SignedVote;
    ImportAllKeeps(env, p.node, blocks);
    OnBlocksShape(env, p, blocks);
    var votes := VotesFor(env, p.node.genesis.chainId, blocks, p.key.value);
    var replies := OnBlocks(env, p, blocks).replies.value;
    var at := |replies| - |blocks| + i;
    assert replies[at] == AsMessages(votes)[i] == VoteMessage(votes[i]);
    assert VoteMessage(votes[i]) in replies;
  }

  lemma SignedVoteSays(env: Env, chainId: string, header: BlockHeader, key: PublicKey)
    ensures var v := SignedVote(env, chainId, header, key);
            v.validator == key && v.round == 0 && v.height == header.height && v.blockHash == env.blockId(header)
  {
  }

  lemma OnBlocksShape(env: Env, p: Peer, blocks: seq<Block>)
    ensures OnBlocks(env, p, blocks).peer == p.(node := ImportAll(env, p.node, blocks).node)
  {
    hide ImportAll;
  }

  lemma BlocksKeep(env: Env, genesis: GenesisConfig, net: Net, i: nat, blocks: seq<Block>)
    requires HeadersHashApart(env) && NetOk(env, genesis, net) && i in net.peers
    ensures NetOk(env, genesis, Next(env, net, Deliver(i, Blocks(blocks))))
  {
    hide ImportAll, ChainOk, KeysOf, Backed, BallotHonest, Grows, NetOk, Extends, OnBlocks, VotesIn;
    PeerFacts(env, genesis, net, i);
    var p := net.peers[i];
    var h := OnBlocks(env, p, blocks);
    OnBlocksShape(env, p, blocks);
    ImportAllKeeps(env, p.node, blocks);
    var votes := NewVotes(h);
    var net' := Updated(net, i, h.peer, votes, {});
    UpdateExtends(net, i, h.peer, votes, {});
    BallotsStay(env, genesis, net, net', i);
    forall v | v in votes ensures Backed(net', v) {
      NewVotesAreBacked(env, p, blocks, v);
      BackedBy(net', i, v);
    }
    UpdateKeeps(env, genesis, net, i, h.peer, votes, {});
  }

  lemma BackedBy(net: Net, i: nat, v: Vote)
    requires i in net.peers && net.peers[i].key == Some(v.validator) && v.round == 0
             && Holds(net.peers[i].node, v.height, v.blockHash)
    ensures Backed(net, v)
  {
  }

  /** Casting a vote that may arrive leaves the ballot honest. */
  lemma CastIsHonest(env: Env, net: Net, members: set<PublicKey>, p: Peer, v: Vote)
    requires SlotOf(v) in p.ballots ==> BallotHonest(env, net, members, SlotOf(v), p.ballots[SlotOf(v)])
    requires env.voteSigned(v) && IsHonest(net, v.validator) ==> v in net.sent
    ensures BallotHonest(env, net, members, SlotOf(v), Cast(env, BallotFor(p, v), members, v).ballot)
  {
    hide IsHonest;
    var b := BallotFor(p, v);
    CastKeepsSound(env, b, members, v);
    if Cast(env, b, members, v).result.Ok? {
      ValidVoterIsMember(env, members, v, b.chainId, b.height, b.round, b.blockHash);
    }
    hide ValidateVote, BallotSound;
  }

  /** A certificate says what the node's counting found. */
  lemma CertificateSays(env: Env, i: nat, p: Peer, v: Vote, c: Certificate)
    requires ChainOk(env, p.node) && c in NewCertificates(env, i, p, v)
    ensures var b := Cast(env, BallotFor(p, v), KeysOf(p.node.genesis.validators), v).ballot;
            && c == Certificate(i, v.height, v.blockHash, b.votes.Keys)
            && IsQuorum(|KeysOf(p.node.genesis.validators)|, |b.votes|)
            && (SlotOfBallot(b) == SlotOf(v) ==> Holds(p.node, v.height, v.blockHash))
  {
    LatestIsLinked(env, p.node);
    hide Linked, KeysOf, StartsAt, IsQuorum, VotesValid;
  }

  lemma CertificateHolds(env: Env, genesis: GenesisConfig, net: Net, i: nat, p: Peer, v: Vote, c: Certificate)
    requires p.node.genesis == genesis && ChainOk(env, p.node) && c in NewCertificates(env, i, p, v)
    requires BallotHonest(env, net, KeysOf(genesis.validators), SlotOf(v),
             Cast(env, BallotFor(p, v), KeysOf(genesis.validators), v).ballot)
    requires i in net.peers && Grows(p.node, net.peers[i].node)
    ensures Certified(net, KeysOf(genesis.validators), c)
  {
    hide ChainOk, KeysOf, IsHonest, IsQuorum, Cast, NewCertificates, BallotFor, Grows, ValidateVote, Holds;
    var members := KeysOf(genesis.validators);
    var b := Cast(env, BallotFor(p, v), members, v).ballot;
    CertificateSays(env, i, p, v, c);
    HoldsStays(p.node, net.peers[i].node, c.height, c.hash);
    SignersAreMembers(env, b, members);
    forall k | k in c.signers && IsHonest(net, k) ensures SentFor(net.sent, k, c.height, c.hash) {
      assert b.votes[k] in net.sent;
      ValidVoterIsMember(env, members, b.votes[k], b.chainId, b.height, b.round, b.blockHash);
    }
  }

  lemma OnVoteShape(env: Env, p: Peer, v: Vote)
    requires ChainOk(env, p.node)
    ensures var p' := OnVote(env, p, v).peer;
            var b := Cast(env, BallotFor(p, v), KeysOf(p.node.genesis.validators), v).ballot;
            && p'.key == p.key && p'.ballots == p.ballots[SlotOf(v) := b]
            && ChainOk(env, p'.node) && Grows(p.node, p'.node)
  {
    hide ChainOk, KeysOf, IsQuorum, FinalizeVotes;
    CountedKeepsChain(env, p.node, Cast(env, BallotFor(p, v), KeysOf(p.node.genesis.validators), v).ballot);
    hide Cast, BallotFor;
  }

  lemma VoteKeeps(env: Env, genesis: GenesisConfig, net: Net, i: nat, v: Vote)
    requires HeadersHashApart(env) && NetOk(env, genesis, net)
    requires Possible(env, net, Deliver(i, VoteMessage(v)))
    ensures NetOk(env, genesis, Next(env, net, Deliver(i, VoteMessage(v))))
  {
    hide ChainOk, KeysOf, Certified, BallotHonest, Grows, NetOk, Extends, OnVote, Cast, BallotFor, NewCertificates;
    PeerFacts(env, genesis, net, i);
    var p, members := net.peers[i], KeysOf(genesis.validators);
    var p', b, certificates := OnVote(env, p, v).peer, Cast(env, BallotFor(p, v), members, v).ballot,
      NewCertificates(env, i, p, v);
    OnVoteShape(env, p, v);
    OthersSendNoVotes(env, p, VoteMessage(v));
    var net' := Updated(net, i, p', {}, certificates);
    UpdateExtends(net, i, p', {}, certificates);
    BallotsStay(env, genesis, net, net', i);
    CastIsHonest(env, net, members, p, v);
    BallotStays(env, net, net', members, SlotOf(v), b);
    forall c | c in certificates ensures Certified(net', members, c) {
      CertificateHolds(env, genesis, net', i, p, v, c);
    }
    UpdateKeeps(env, genesis, net, i, p', {}, certificates);
  }

  /** Every possible move keeps the network in order. */
  lemma NextKeeps(env: Env, genesis: GenesisConfig, net: Net, m: Move)
    requires HeadersHashApart(env) && NetOk(env, genesis, net) && Possible(env, net, m)
    ensures NetOk(env, genesis, Next(env, net, m))
  {
    PossibleMover(env, net, m);
    hide NetOk, Next, Possible;
    match m
    case Act(i, e) => ActKeeps(env, genesis, net, i, e);
    case Deliver(i, message) =>
      match message {
        case GetBlocks(from, to) => AskingKeeps(env, net, i, from, to);
        case Blocks(blocks) => BlocksKeep(env, genesis, net, i, blocks);
        case VoteMessage(v) => VoteKeeps(env, genesis, net, i, v);
      }
  }

  lemma AskingKeeps(env: Env, net: Net, i: nat, from: nat, to: nat)
    requires i in net.peers
    ensures Next(env, net, Deliver(i, GetBlocks(from, to))) == net
  {
    hide OnMessage, NewVotes;
    OthersSendNoVotes(env, net.peers[i], GetBlocks(from, to));
    assert net.peers[i := net.peers[i]] == net.peers;
  }

  lemma PossibleMover(env: Env, net: Net, m: Move)
    requires Possible(env, net, m)
    ensures m.i in net.peers
  {
  }

  /* ---------- agreement ---------- */

  ghost function Faulty(genesis: GenesisConfig, net: Net): set<PublicKey> {
    set k | k in KeysOf(genesis.validators) && !IsHonest(net, k)
  }

  /** Fewer than a third of the validators are faulty. */
  ghost predicate FewFaulty(genesis: GenesisConfig, net: Net) {
    3 * |Faulty(genesis, net)| < |KeysOf(genesis.validators)| <= ISIZE_MAX
  }

  /** Two chains that meet at one height are the same below it. */
  lemma {:induction false} SameAncestors(env: Env, a: Disk, aTop: nat, b: Disk, bTop: nat, height: nat, low: nat)
    requires HeadersHashApart(env) && Linked(env, a, aTop) && Linked(env, b, bTop)
    requires low <= height <= aTop && height <= bTop && a.heights[height] == b.heights[height]
    ensures a.heights[low] == b.heights[low]
    decreases height
  {
    if low < height {
      assert LinkAt(env, a, height) && LinkAt(env, b, height);
      assert a.blocks[a.heights[height]].header == b.blocks[b.heights[height]].header;
      SameAncestors(env, a, aTop, b, bTop, height - 1, low);
    }
  }

  lemma HeldBelow(env: Env, n: NodeView, m: NodeView, high: nat, top: Hash, low: nat, hash: Hash)
    requires HeadersHashApart(env) && ChainOk(env, n) && ChainOk(env, m) && low <= high
    requires Holds(n, high, top) && Holds(m, high, top) && Holds(n, low, hash)
    ensures Holds(m, low, hash)
  {
    hide StartsAt, Marks;
    SameAncestors(env, n.disk, n.latest.header.height, m.disk, m.latest.header.height, high, low);
  }

  lemma SentVoteIsHeld(env: Env, genesis: GenesisConfig, net: Net, k: PublicKey, height: nat, hash: Hash)
      returns (i: nat)
    requires NetOk(env, genesis, net) && SentFor(net.sent, k, height, hash)
    ensures i in net.peers && net.peers[i].key == Some(k) && Holds(net.peers[i].node, height, hash)
  {
    hide Setup, KeysOf, Holds, BallotHonest, Certified;
    var v :| v in net.sent && v.validator == k && v.height == height && v.blockHash == hash;
    assert Backed(net, v);
    i :| i in net.peers && net.peers[i].key == Some(v.validator) && v.round == 0
      && Holds(net.peers[i].node, v.height, v.blockHash);
  }

  lemma SharedSigner(env: Env, genesis: GenesisConfig, net: Net, c: Certificate, d: Certificate) returns (k: PublicKey)
    requires NetOk(env, genesis, net) && FewFaulty(genesis, net) && c in net.final && d in net.final
    ensures SentFor(net.sent, k, c.height, c.hash) && SentFor(net.sent, k, d.height, d.hash)
    ensures c.peer in net.peers && d.peer in net.peers
    ensures Holds(net.peers[c.peer].node, c.height, c.hash) && Holds(net.peers[d.peer].node, d.height, d.hash)
  {
    hide Setup, Holds, BallotHonest, IsQuorum, IsHonest, SentFor, Backed;
    var members, faulty := KeysOf(genesis.validators), Faulty(genesis, net);
    assert Certified(net, members, c) && Certified(net, members, d);
    assert faulty * members == faulty;
    k := QuorumsShareHonest(members, c.signers, d.signers, faulty);
    assert IsHonest(net, k);
  }

  /** An honest validator votes in round 0 and for one block at each height. */
  lemma OneVotePerHeight(env: Env, genesis: GenesisConfig, net: Net, v: Vote, w: Vote)
    requires NetOk(env, genesis, net) && v in net.sent && w in net.sent && v.validator == w.validator
    ensures v.round == 0 && (v.height == w.height ==> v.blockHash == w.blockHash)
  {
    hide KeysOf, BallotHonest, Certified, ChainOk;
    assert Backed(net, v) && Backed(net, w);
  }

  /** If one honest node finalised a block, every honest node that finalised at or above that height has that very
      block on its chain. */
  lemma FinalityIsOneChain(env: Env, genesis: GenesisConfig, net: Net, c: Certificate, d: Certificate)
    requires HeadersHashApart(env) && NetOk(env, genesis, net) && FewFaulty(genesis, net)
    requires c in net.final && d in net.final && c.height <= d.height
    ensures d.peer in net.peers && Holds(net.peers[d.peer].node, c.height, c.hash)
    ensures c.height == d.height ==> c.hash == d.hash
  {
    hide NetOk, FewFaulty, SentFor, ChainOk, KeysOf;
    var k := SharedSigner(env, genesis, net, c, d);
    var i := SentVoteIsHeld(env, genesis, net, k, c.height, c.hash);
    var j := SentVoteIsHeld(env, genesis, net, k, d.height, d.hash);
    OneNodePerKey(env, genesis, net, i, j);
    PeerFacts(env, genesis, net, i);
    PeerFacts(env, genesis, net, d.peer);
    HeldBelow(env, net.peers[i].node, net.peers[d.peer].node, d.height, d.hash, c.height, c.hash);
  }

  lemma OneNodePerKey(env: Env, genesis: GenesisConfig, net: Net, i: nat, j: nat)
    requires NetOk(env, genesis, net) && i in net.peers && j in net.peers
    requires net.peers[i].key.Some? && net.peers[i].key == net.peers[j].key
    ensures i == j
  {
    hide ChainOk;
  }

  /* ---------- runs of the network ---------- */

  ghost predicate PossibleRun(env: Env, net: Net, moves: seq<Move>)
    decreases |moves|
  {
    moves != [] ==> Possible(env, net, moves[0]) && PossibleRun(env, Next(env, net, moves[0]), moves[1..])
  }

  ghost function After(env: Env, net: Net, moves: seq<Move>): Net
    requires PossibleRun(env, net, moves)
    decreases |moves|
  {
    if moves == [] then net else After(env, Next(env, net, moves[0]), moves[1..])
  }

  /** Honest nodes on empty stores, each with a key of its own or none. */
  ghost predicate Start(env: Env, genesis: GenesisConfig, net: Net) {
    && InitialState(genesis).Some? && net.sent == {} && net.final == {}
    && (forall i | i in net.peers ::
          net.peers[i].ballots == map[] && Open(env, genesis, EMPTY_DISK).result == Ok(net.peers[i].node))
    && (forall i, j | i in net.peers && j in net.peers && net.peers[i].key.Some?
      && net.peers[i].key == net.peers[j].key :: i == j)
  }

  lemma StartIsOk(env: Env, genesis: GenesisConfig, net: Net)
    requires Start(env, genesis, net)
    ensures NetOk(env, genesis, net)
  {
    FreshNodeHasChain(env, genesis);
    FreshNodeGenesis(env, genesis);
    hide ChainOk, InitialState, Open;
  }

  lemma FreshNodeGenesis(env: Env, genesis: GenesisConfig)
    ensures var r := Open(env, genesis, EMPTY_DISK).result; r.Ok? ==> r.value.genesis == genesis
  {
    hide Ensured;
  }

  lemma KeysStay(env: Env, net: Net, m: Move)
    requires m.i in net.peers && ChainOk(env, net.peers[m.i].node)
    ensures Next(env, net, m).peers.Keys == net.peers.Keys
    ensures forall i | i in net.peers :: Next(env, net, m).peers[i].key == net.peers[i].key
  {
    hide OnBlocks, OnVote, NodeStep, ChainOk, Grows, Cast, NewCertificates, BallotFor;
    var p := net.peers[m.i];
    if m.Deliver? && m.message.Blocks? {
      OnBlocksShape(env, p, m.message.blocks);
    } else if m.Deliver? && m.message.VoteMessage? {
      OnVoteShape(env, p, m.message.vote);
    }
  }

  lemma {:induction false} RunKeeps(env: Env, genesis: GenesisConfig, net: Net, moves: seq<Move>)
    requires HeadersHashApart(env) && NetOk(env, genesis, net) && PossibleRun(env, net, moves)
    ensures NetOk(env, genesis, After(env, net, moves))
    ensures forall k :: IsHonest(net, k) <==> IsHonest(After(env, net, moves), k)
    decreases |moves|
  {
    hide NetOk, Next, ChainOk;
    if moves != [] {
      PossibleMover(env, net, moves[0]);
      PeerFacts(env, genesis, net, moves[0].i);
      KeysStay(env, net, moves[0]);
      NextKeeps(env, genesis, net, moves[0]);
      RunKeeps(env, genesis, Next(env, net, moves[0]), moves[1..]);
    }
  }

  /** Agreement: in every run of the network from its start, with fewer than a third of the validators faulty, what
      honest nodes finalise at or above a height contains what any honest node finalised at that height. */
  lemma HonestNodesAgree(env: Env, genesis: GenesisConfig, net: Net, moves: seq<Move>, c: Certificate, d: Certificate)
    requires HeadersHashApart(env) && Start(env, genesis, net) && FewFaulty(genesis, net)
    requires PossibleRun(env, net, moves)
    requires var end := After(env, net, moves); c in end.final && d in end.final && c.height <= d.height
    ensures var end := After(env, net, moves);
            d.peer in end.peers && Holds(end.peers[d.peer].node, c.height, c.hash)
              && (c.height == d.height ==> c.hash == d.hash)
  {
    hide NetOk, Start, PossibleRun, After, IsHonest, KeysOf;
    StartIsOk(env, genesis, net);
    RunKeeps(env, genesis, net, moves);
    var end := After(env, net, moves);
    assert Faulty(genesis, end) == Faulty(genesis, net);
    FinalityIsOneChain(env, genesis, end, c, d);
  }
}
