/** What a node does with the messages of its peers: blocks to import and vote for, votes to count, ranges to serve. */
module Network {
  import opened Wrappers
  import opened Core
  import opened Storage
  import opened Consensus
  import opened Nodes
  import opened NodeObject

  const MAX_RANGE := 128
  /** A batch of this many blocks makes the receiver ask for more. */
  const FULL_BATCH := 129

  type Slot = (nat, Hash, nat)

  datatype Message =
    | GetBlocks(from: nat, to: nat)
    | Blocks(blocks: seq<Block>)
    | VoteMessage(vote: Vote)

  /** A node, the validator key it votes with, and the ballots it is counting. */
  datatype Peer = Peer(node: NodeView, key: Option<PublicKey>, ballots: map<Slot, Ballot>)

  /* ---------- blocks ---------- */

  datatype Intake = Intake(node: NodeView, accepted: bool)

  /** Blocks are imported in order; the first that is refused ends the connection. */
  function ImportAll(env: Env, n: NodeView, blocks: seq<Block>): Intake
    decreases |blocks|
  {
    if blocks == [] then Intake(n, true)
    else
      var r := Import(env, n, blocks[0]);
      if r.result.Err? then Intake(r.view, false) else ImportAll(env, r.view, blocks[1..])
  }

  const UNSIGNED := Signature("")

  function SignedVote(env: Env, chainId: string, header: BlockHeader, key: PublicKey): Vote {
    var vote := Vote(1, chainId, header.height, 0, env.blockId(header), key, UNSIGNED);
    vote.(signature := env.signVote(key, vote))
  }

  function VotesFor(env: Env, chainId: string, blocks: seq<Block>, key: PublicKey): (votes: seq<Vote>)
    ensures |votes| == |blocks|
    ensures forall i :: 0 <= i < |blocks| ==> votes[i] == SignedVote(env, chainId, blocks[i].header, key)
  {
    if blocks == [] then []
    else [SignedVote(env, chainId, blocks[0].header, key)] + VotesFor(env, chainId, blocks[1..], key)
  }

  function AsMessages(votes: seq<Vote>): (messages: seq<Message>)
    ensures |messages| == |votes| && forall i :: 0 <= i < |votes| ==> messages[i] == VoteMessage(votes[i])
  {
    if votes == [] then [] else [VoteMessage(votes[0])] + AsMessages(votes[1..])
  }

  /** `None` closes the connection. */
  datatype Handled = Handled(peer: Peer, replies: Option<seq<Message>>)

  function OnBlocks(env: Env, p: Peer, blocks: seq<Block>): Handled {
    var intake := ImportAll(env, p.node, blocks);
    var p' := p.(node := intake.node);
    if !intake.accepted then Handled(p', None)
    else
      var more := if |blocks| == FULL_BATCH
                  then var from := blocks[|blocks| - 1].header.height + 1; [GetBlocks(from, from + MAX_RANGE)] else [];
      var votes := if p.key.Some? then VotesFor(env, p.node.genesis.chainId, blocks, p.key.value) else [];
      Handled(p', Some(more + AsMessages(votes)))
  }

  /* ---------- votes ---------- */

  function SlotOf(v: Vote): Slot {
    (v.height, v.blockHash, v.round)
  }

  function BallotFor(p: Peer, v: Vote): Ballot {
    if SlotOf(v) in p.ballots then p.ballots[SlotOf(v)] else Ballot(v.chainId, v.height, v.round, v.blockHash, map[])
  }

  function OnVote(env: Env, p: Peer, v: Vote): Handled {
    var members := KeysOf(p.node.genesis.validators);
    var cast := Cast(env, BallotFor(p, v), members, v);
    var p' := p.(ballots := p.ballots[SlotOf(v) := cast.ballot]);
    if cast.result.Err? then Handled(p', None)
    else if !IsQuorum(|members|, |cast.ballot.votes|) then Handled(p', Some([]))
    else
      var counted := FinalizeVotes(env, p.node, cast.ballot);
      Handled(p'.(node := counted.view), if counted.result.Ok? then Some([]) else None)
  }

  /* ---------- serving ranges ---------- */

  /** The stored blocks from one height to another, inclusive. */
  function Stored(d: Disk, from: nat, to: nat): seq<Block>
    decreases to + 1 - from
  {
    if from > to then []
    else
      var b := GetBlockByHeight(d, from);
      (if b.Ok? then [b.value] else []) + Stored(d, from + 1, to)
  }

  function CollectBlocks(n: NodeView, from: nat, to: nat): Option<seq<Block>> {
    if to < from || to - from > MAX_RANGE then None
    else
      var latest := n.latest.header.height;
      var end := if to < latest then to else latest;
      Some(Stored(n.disk, from, end))
  }

  function OnGetBlocks(p: Peer, from: nat, to: nat): Handled {
    var blocks := CollectBlocks(p.node, from, to);
    if blocks.None? then Handled(p, None) else Handled(p, Some([Blocks(blocks.value)]))
  }

  function OnMessage(env: Env, p: Peer, m: Message): Handled {
    match m
    case GetBlocks(from, to) => OnGetBlocks(p, from, to)
    case Blocks(blocks) => OnBlocks(env, p, blocks)
    case VoteMessage(v) => OnVote(env, p, v)
  }

  /** One connection's message loop around the shared node and the shared ballots. */
  class Connection {
    const node: Node
    const key: Option<PublicKey>
    var ballots: map<Slot, Ballot>

    constructor (node: Node, key: Option<PublicKey>, ballots: map<Slot, Ballot>)
      ensures this.node == node && this.key == key && this.ballots == ballots
    {
      this.node, this.key, this.ballots := node, key, ballots;
    }

    function View(): Peer
      reads this, node, node.store, node.mempool
    {
      Peer(node.View(), key, ballots)
    }

    method ReceiveBlocks(blocks: seq<Block>) returns (replies: Option<seq<Message>>)
      requires node.Valid()
      modifies node, node.store, node.mempool
      ensures Handled(View(), replies) == OnBlocks(node.env, old(View()), blocks)
    {
      hide Import;
      var votes := if key.Some? then VotesFor(node.env, node.genesis.chainId, blocks, key.value) else [];
      var requestFrom := if |blocks| == FULL_BATCH then Some(blocks[|blocks| - 1].header.height + 1) else None;
      for i := 0 to |blocks|
        invariant ImportAll(node.env, node.View(), blocks[i..]) == ImportAll(node.env, old(node.View()), blocks)
        invariant ballots == old(ballots)
      {
        assert blocks[i..][1..] == blocks[i + 1..];
        var r := node.ImportBlock(blocks[i]);
        if r.Err? {
          return None;
        }
      }
      var out := if requestFrom.Some? then [GetBlocks(requestFrom.value, requestFrom.value + MAX_RANGE)] else [];
      return Some(out + AsMessages(votes));
    }

    method ReceiveVote(v: Vote) returns (replies: Option<seq<Message>>)
      requires node.Valid()
      modifies this, node.store
      ensures Handled(View(), replies) == OnVote(node.env, old(View()), v)
    {
      hide FinalizeVotes, IsQuorum;
      var members := KeysOf(node.genesis.validators);
      var cast := Cast(node.env, BallotFor(View(), v), members, v);
      ballots := ballots[SlotOf(v) := cast.ballot];
      if cast.result.Err? {
        return None;
      }
      if IsQuorum(|members|, |cast.ballot.votes|) {
        var counted := node.FinalizeVotes(cast.ballot);
        return if counted.Ok? then Some([]) else None;
      }
      return Some([]);
    }

    method ServeRange(from: nat, to: nat) returns (replies: Option<seq<Message>>)
      requires node.Valid()
      ensures Handled(View(), replies) == OnGetBlocks(View(), from, to)
    {
      if to < from || to - from > MAX_RANGE {
        return None;
      }
      var latest := node.latest.header.height;
      var blocks := CollectUpTo(from, if to < latest then to else latest);
      return Some([Blocks(blocks)]);
    }

    method CollectUpTo(from: nat, end: nat) returns (blocks: seq<Block>)
      ensures blocks == Stored(node.store.View(), from, end)
    {
      var d, height := node.store.View(), from;
      blocks := [];
      while height <= end
        invariant Stored(d, from, end) == blocks + Stored(d, height, end)
        decreases end + 1 - height
      {
        var b := GetBlockByHeight(d, height);
        if b.Ok? {
          blocks := blocks + [b.value];
        }
        height := height + 1;
      }
    }
  }
}
