/** A node that fell behind asks a peer for ranges of blocks until it has caught up. */
module Sync {
  import opened Wrappers
  import opened Core
  import opened Storage
  import opened Nodes
  import opened Chain
  import opened Network
  import opened Agreement

  /** What importing looks at, and what two nodes on the same chain share. Pools, votes and finality may differ. */
  ghost predicate SameChain(a: NodeView, b: NodeView) {
    && a.genesis == b.genesis && a.state == b.state && a.latest == b.latest
    && a.disk.blocks == b.disk.blocks && a.disk.heights == b.disk.heights
  }

  /** The follower's chain is the lower part of the peer's. The hash of a block covers its header only, so the
      bodies have to be compared too. */
  ghost predicate Behind(f: NodeView, p: NodeView) {
    && f.latest.header.height <= p.latest.header.height
    && (forall h | h in f.disk.heights :: Holds(p, h, f.disk.heights[h]))
    && (forall x | x in f.disk.blocks :: HoldsBlock(p, x, f.disk.blocks[x]))
  }

  predicate HoldsBlock(n: NodeView, hash: Hash, b: Block) {
    hash in n.disk.blocks && n.disk.blocks[hash] == b
  }

  function Above(f: NodeView, p: NodeView): seq<Block> {
    Stored(p.disk, f.latest.header.height + 1, p.latest.header.height)
  }

  /** The rest of the peer's chain imports on the follower, and leads to the peer's state. */
  ghost predicate Importable(env: Env, f: NodeView, p: NodeView) {
    var r := ImportAll(env, f, Above(f, p));
    r.accepted && r.node.state == p.state
  }

  /* ---------- ranges of a chain ---------- */

  lemma {:induction false} StoredRange(env: Env, n: NodeView, from: nat, to: nat)
    requires ChainOk(env, n) && to <= n.latest.header.height && from <= to + 1
    ensures var s := Stored(n.disk, from, to);
            && |s| == to + 1 - from
            && forall i :: 0 <= i < |s| ==>
                 s[i].header.height == from + i && Holds(n, from + i, env.blockId(s[i].header))
                                            && HoldsBlock(n, env.blockId(s[i].header), s[i])
    decreases 1 + to - from
  {
    hide StartsAt, Marks;
    if from <= to {
      assert LinkAt(env, n.disk, from);
      StoredRange(env, n, from + 1, to);
    }
  }

  lemma {:induction false} StoredSplit(d: Disk, from: nat, mid: nat, to: nat)
    requires from <= mid + 1 && mid <= to
    ensures Stored(d, from, to) == Stored(d, from, mid) + Stored(d, mid + 1, to)
    decreases mid + 1 - from
  {
    if from <= mid {
      StoredSplit(d, from + 1, mid, to);
    }
  }

  lemma {:induction false} ImportAllAppend(env: Env, n: NodeView, a: seq<Block>, b: seq<Block>)
    ensures var r := ImportAll(env, n, a);
            ImportAll(env, n, a + b) == if r.accepted then ImportAll(env, r.node, b) else r
    decreases |a|
  {
    hide Import;
    if a == [] {
      assert a + b == b;
    } else {
      assert (a + b)[1..] == a[1..] + b;
      ImportAllAppend(env, Import(env, n, a[0]).view, a[1..], b);
    }
  }

  /* ---------- importing the peer's next blocks ---------- */

  lemma NextImports(env: Env, f: NodeView, p: NodeView, b: Block)
    requires HeadersHashApart(env) && ChainOk(env, f) && ChainOk(env, p) && Behind(f, p)
    requires b.header.height == f.latest.header.height + 1 <= p.latest.header.height
    requires Holds(p, b.header.height, env.blockId(b.header)) && HoldsBlock(p, env.blockId(b.header), b)
    requires Import(env, f, b).result.Ok?
    ensures var f' := Import(env, f, b).view; ChainOk(env, f') && Behind(f', p) && f'.latest == b
  {
    hide Import, StartsAt, Marks;
    NextBlockIsNew(env, f.disk, f.latest.header.height, b.header);
    ImportedFollows(env, f, b);
    ImportStep(env, f, b);
    ImportedIsHeld(env, f, b);
    hide Linked;
    var f' := Import(env, f, b).view;
    forall h | h in f'.disk.heights ensures Holds(p, h, f'.disk.heights[h]) {
    }
    forall x | x in f'.disk.blocks ensures HoldsBlock(p, x, f'.disk.blocks[x]) {
    }
  }

  /** Importing a consecutive part of the peer's chain climbs exactly to its end. */
  lemma {:induction false} BatchImports(env: Env, f: NodeView, p: NodeView, to: nat)
    requires HeadersHashApart(env) && ChainOk(env, f) && ChainOk(env, p) && Behind(f, p)
    requires f.latest.header.height <= to <= p.latest.header.height
    requires ImportAll(env, f, Stored(p.disk, f.latest.header.height + 1, to)).accepted
    ensures var f' := ImportAll(env, f, Stored(p.disk, f.latest.header.height + 1, to)).node;
            ChainOk(env, f') && Behind(f', p) && f'.latest.header.height == to && f'.genesis == f.genesis
    decreases 0 + to - f.latest.header.height
  {
    hide Import, ChainOk, Behind, Holds, HoldsBlock;
    var from := f.latest.header.height + 1;
    StoredRange(env, p, from, to);
    if from <= to {
      var blocks := Stored(p.disk, from, to);
      StoredSplit(p.disk, from, from, to);
      StoredRange(env, p, from, from);
      assert blocks[1..] == Stored(p.disk, from + 1, to);
      NextImports(env, f, p, blocks[0]);
      ImportStep(env, f, blocks[0]);
      SameGenesis(f, Import(env, f, blocks[0]).view);
      BatchImports(env, Import(env, f, blocks[0]).view, p, to);
    }
  }

  lemma SameGenesis(n: NodeView, m: NodeView)
    requires Grows(n, m)
    ensures m.genesis == n.genesis
  {
  }

  /** At equal heights, being behind means being on the same chain. */
  lemma CaughtUp(env: Env, f: NodeView, p: NodeView)
    requires HeadersHashApart(env) && ChainOk(env, f) && ChainOk(env, p) && Behind(f, p)
    requires f.latest.header.height == p.latest.header.height && f.state == p.state && f.genesis == p.genesis
    ensures SameChain(f, p)
  {
    hide StartsAt, Marks;
    assert f.disk.heights.Keys == p.disk.heights.Keys;
    assert f.disk.heights == p.disk.heights;
    forall x | x in p.disk.blocks ensures x in f.disk.blocks {
      assert LinkAt(env, f.disk, p.disk.blocks[x].header.height);
    }
    assert HoldsBlock(p, f.disk.heights[f.latest.header.height], f.latest);
    assert f.disk.blocks == p.disk.blocks;
  }

  /* ---------- the exchange ---------- */

  datatype Exchanged = Exchanged(follower: Peer, requests: seq<(nat, nat)>, done: bool)

  lemma ServedRange(env: Env, p: Peer, from: nat)
    requires ChainOk(env, p.node)
    ensures var top := p.node.latest.header.height;
            var end := if from + MAX_RANGE < top then from + MAX_RANGE else top;
            var blocks := Stored(p.node.disk, from, end);
            && OnGetBlocks(p, from, from + MAX_RANGE).replies == Some([Blocks(blocks)])
            && |blocks| == (if from <= end then end + 1 - from else 0)
            && (|blocks| == FULL_BATCH ==> end == from + MAX_RANGE && blocks[|blocks| - 1].header.height == end)
  {
    hide ChainOk, Stored;
    var top := p.node.latest.header.height;
    var end := if from + MAX_RANGE < top then from + MAX_RANGE else top;
    if from <= end {
      StoredRange(env, p.node, from, end);
    } else {
      EmptyRange(p.node.disk, from, end);
    }
  }

  lemma EmptyRange(d: Disk, from: nat, end: nat)
    requires end < from
    ensures Stored(d, from, end) == []
  {
  }

  /** Requests and answers between a follower and a peer whose chain does not move meanwhile. */
  ghost function Exchange(env: Env, f: Peer, p: Peer, from: nat): Exchanged
    requires ChainOk(env, p.node)
    decreases if from <= p.node.latest.header.height then p.node.latest.header.height + 1 - from else 0
  {
    var request := (from, from + MAX_RANGE);
    ServedRange(env, p, from);
    var blocks := OnGetBlocks(p, from, from + MAX_RANGE).replies.value[0].blocks;
    var h := OnBlocks(env, f, blocks);
    if h.replies.None? then Exchanged(h.peer, [request], false)
    else if |blocks| == FULL_BATCH then
      var rest := Exchange(env, h.peer, p, h.replies.value[0].from);
      rest.(requests := [request] + rest.requests)
    else Exchanged(h.peer, [request], true)
  }

  /** One batch brings the follower up to the end of the range, still behind the peer and with the rest importable. */
  lemma BatchAdvances(env: Env, f: NodeView, p: NodeView, end: nat)
    requires HeadersHashApart(env) && ChainOk(env, f) && ChainOk(env, p) && Behind(f, p) && Importable(env, f, p)
    requires f.latest.header.height <= end <= p.latest.header.height
    ensures var r := ImportAll(env, f, Stored(p.disk, f.latest.header.height + 1, end));
            && r.accepted && ChainOk(env, r.node) && Behind(r.node, p) && Importable(env, r.node, p)
            && r.node.latest.header.height == end && r.node.genesis == f.genesis
  {
    hide ImportAll, ChainOk, Behind, Stored;
    var from := f.latest.header.height + 1;
    StoredSplit(p.disk, from, end, p.latest.header.height);
    ImportAllAppend(env, f, Stored(p.disk, from, end), Stored(p.disk, end + 1, p.latest.header.height));
    BatchImports(env, f, p, end);
  }

  lemma OnBlocksAccepts(env: Env, f: Peer, blocks: seq<Block>)
    requires ImportAll(env, f.node, blocks).accepted
    ensures OnBlocks(env, f, blocks).replies.Some?
    ensures |blocks| == FULL_BATCH ==>
              |OnBlocks(env, f, blocks).replies.value| > 0
              && var from := blocks[|blocks| - 1].header.height + 1;
                 OnBlocks(env, f, blocks).replies.value[0] == GetBlocks(from, from + MAX_RANGE)
  {
    hide ImportAll;
  }

  /** A follower whose chain is the lower part of a peer's importable chain asks only for ranges the peer serves,
      one request for every full batch and one for the rest, and ends with the peer's blocks and state. */
  lemma {:induction false} SyncConverges(env: Env, f: Peer, p: Peer)
    requires HeadersHashApart(env) && ChainOk(env, f.node) && ChainOk(env, p.node)
    requires f.node.genesis == p.node.genesis && Behind(f.node, p.node) && Importable(env, f.node, p.node)
    ensures var gap := p.node.latest.header.height - f.node.latest.header.height;
            var r := Exchange(env, f, p, f.node.latest.header.height + 1);
            && r.done && SameChain(r.follower.node, p.node)
            && |r.requests| == gap / FULL_BATCH + 1
            && forall q | q in r.requests :: CollectBlocks(p.node, q.0, q.1).Some?
    decreases p.node.latest.header.height - f.node.latest.header.height
  {
    hide ChainOk, Behind, Importable, SameChain, ImportAll, OnBlocks, Stored;
    var from, top := f.node.latest.header.height + 1, p.node.latest.header.height;
    BehindIsLower(f.node, p.node);
    var end := if from + MAX_RANGE < top then from + MAX_RANGE else top;
    var blocks := Stored(p.node.disk, from, end);
    ServedRange(env, p, from);
    BatchAdvances(env, f.node, p.node, end);
    OnBlocksAccepts(env, f, blocks);
    OnBlocksShape(env, f, blocks);
    var h := OnBlocks(env, f, blocks);
    if |blocks| == FULL_BATCH {
      SyncConverges(env, h.peer, p);
      var rest := Exchange(env, h.peer, p, end + 1);
      assert Exchange(env, f, p, from) == rest.(requests := [(from, from + MAX_RANGE)] + rest.requests);
    } else {
      assert Exchange(env, f, p, from) == Exchanged(h.peer, [(from, from + MAX_RANGE)], true);
      NothingLeft(env, h.peer.node, p.node);
      CaughtUp(env, h.peer.node, p.node);
    }
  }

  lemma BehindIsLower(f: NodeView, p: NodeView)
    requires Behind(f, p)
    ensures f.latest.header.height <= p.latest.header.height
  {
  }

  lemma NothingLeft(env: Env, f: NodeView, p: NodeView)
    requires Importable(env, f, p) && f.latest.header.height == p.latest.header.height
    ensures f.state == p.state
  {
  }
}
