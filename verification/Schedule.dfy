/** Whose turn a height is: the validators propose one after the other, and what a chain stores keeps to that. */
module Schedule {
  import opened Wrappers
  import opened Core
  import opened Arithmetic
  import opened Ledger
  import opened Genesis
  import opened Replay
  import opened Storage
  import opened Consensus
  import opened Nodes
  import opened BlockReplay
  import opened Chain

  /* ---------- the rotation ---------- */

  lemma RemainderIs(x: nat, n: nat, q: nat, r: nat)
    requires n > 0 && r < n && x == q * n + r
    ensures x % n == r
  {
    DivideBack(q, r, n);
  }

  lemma NextRemainder(x: nat, n: nat)
    requires n > 0
    ensures (x + 1) % n == if x % n == n - 1 then 0 else x % n + 1
  {
    var q := x / n;
    assert x == q * n + x % n;
    if x % n == n - 1 {
      assert x + 1 == (q + 1) * n + 0;
      RemainderIs(x + 1, n, q + 1, 0);
    } else {
      RemainderIs(x + 1, n, q, x % n + 1);
    }
  }

  /** The proposers of some heights in a row. */
  function Proposers(validators: seq<Validator>, first: nat, count: nat): (r: seq<Option<Validator>>)
    ensures |r| == count
    ensures forall i :: 0 <= i < count ==> r[i] == ProposerForHeight(validators, first + i, 0)
  {
    if count == 0 then []
    else Proposers(validators, first, count - 1) + [ProposerForHeight(validators, first + count - 1, 0)]
  }

  function Each(validators: seq<Validator>): (r: seq<Option<Validator>>)
    ensures |r| == |validators| && forall i :: 0 <= i < |r| ==> r[i] == Some(validators[i])
  {
    if validators == [] then [] else [Some(validators[0])] + Each(validators[1..])
  }

  /** Where the rotation stands at a height. */
  function Place(validators: seq<Validator>, height: nat): nat
    requires validators != []
  {
    height % |validators|
  }

  lemma {:induction false} PlaceMoves(validators: seq<Validator>, first: nat, i: nat)
    requires validators != [] && i < |validators|
    ensures var n, k := |validators|, Place(validators, first);
            Place(validators, first + i) == if k + i < n then k + i else k + i - n
  {
    if i > 0 {
      PlaceMoves(validators, first, i - 1);
      NextRemainder(first + i - 1, |validators|);
    }
  }

  /** Among as many consecutive heights as there are validators, the schedule goes once through the list, starting
      somewhere in it; and it starts at the first one wherever the height is a multiple of their number. */
  lemma ScheduleRotates(validators: seq<Validator>, first: nat)
    requires validators != []
    ensures var k := Place(validators, first);
            Proposers(validators, first, |validators|) == Each(validators)[k..] + Each(validators)[..k]
    ensures multiset(Proposers(validators, first, |validators|)) == multiset(Each(validators))
    ensures forall m: nat :: ProposerForHeight(validators, m * |validators|, 0) == Some(validators[0])
  {
    var n, k, all := |validators|, Place(validators, first), Each(validators);
    var turns := Proposers(validators, first, n);
    forall i | 0 <= i < n ensures turns[i] == (all[k..] + all[..k])[i] {
      PlaceMoves(validators, first, i);
    }
    assert turns == all[k..] + all[..k];
    assert all == all[..k] + all[k..];
    forall m: nat ensures ProposerForHeight(validators, m * n, 0) == Some(validators[0]) {
      RemainderIs(m * n, n, m, 0);
    }
  }

  predicate DistinctKeys(validators: seq<Validator>) {
    forall i, j :: 0 <= i < j < |validators| ==> validators[i].publicKey != validators[j].publicKey
  }

  /** Whether a key may propose at a height. */
  predicate HasTurn(validators: seq<Validator>, height: nat, key: PublicKey) {
    ProposerForHeight(validators, height, 0).Some? && ProposerForHeight(validators, height, 0).value.publicKey == key
  }

  /** With different keys, every validator has exactly one turn among any n consecutive heights. */
  lemma OneTurnEach(validators: seq<Validator>, first: nat, i: nat)
    requires DistinctKeys(validators) && i < |validators|
    ensures exists h: nat :: first <= h < first + |validators| && HasTurn(validators, h, validators[i].publicKey)
    ensures forall g: nat, h: nat | first <= g < h < first + |validators| ::
              !(HasTurn(validators, g, validators[i].publicKey) && HasTurn(validators, h, validators[i].publicKey))
  {
    var n, k, key := |validators|, Place(validators, first), validators[i].publicKey;
    var j := if i >= k then i - k else i + n - k;
    PlaceMoves(validators, first, j);
    assert HasTurn(validators, first + j, key);
    forall g: nat, h: nat | first <= g < h < first + n ensures !(HasTurn(validators, g, key) && HasTurn(validators, h, key)) {
      PlaceMoves(validators, first, g - first);
      PlaceMoves(validators, first, h - first);
      assert validators[Place(validators, g)].publicKey != validators[Place(validators, h)].publicKey;
    }
  }

  /* ---------- what a chain stores ---------- */

  /** A block that names a proposer comes on the proposer's turn, with the proposer's signature. */
  predicate InTurn(env: Env, genesis: GenesisConfig, h: BlockHeader) {
    h.proposer.Some? && genesis.validators != [] ==>
      HasTurn(genesis.validators, h.height, h.proposer.value) && h.proposerSignature.Some? && env.headerSigned(h)
  }

  /** Its transaction root is the root of its operations, and it is of this chain and this version. */
  predicate Rooted(env: Env, genesis: GenesisConfig, b: Block) {
    && b.header.version == 1 && b.header.chainId == genesis.chainId
    && b.header.transactionRoot == env.merkleRoot(BlockIds(env, b))
  }

  ghost predicate StoredInTurn(env: Env, n: NodeView) {
    forall x | x in n.disk.blocks ::
      InTurn(env, n.genesis, n.disk.blocks[x].header) && Rooted(env, n.genesis, n.disk.blocks[x])
  }

  /** Only a scheduled validator produces: any other key is refused, and nothing happens. */
  lemma OnlyOnesTurn(env: Env, n: NodeView, key: PublicKey, timestamp: nat)
    requires n.genesis.validators != []
    ensures Produce(env, n, Some(key), timestamp).result.Ok?
            <==> HasTurn(n.genesis.validators, n.latest.header.height + 1, key)
    ensures Produce(env, n, Some(key), timestamp).result.Err? ==> Produce(env, n, Some(key), timestamp) == Acted(n, Err(NotProposer))
  {
    hide Build, Seal, Unstored, Extended;
  }

  lemma ProducedInTurn(env: Env, n: NodeView, proposer: Option<PublicKey>, timestamp: nat)
    requires HeaderSignaturesVerify(env)
    ensures var p := Produce(env, n, proposer, timestamp);
            p.result.Ok? ==> InTurn(env, n.genesis, p.result.value.header) && Rooted(env, n.genesis, p.result.value)
  {
    hide Build, BlockIds, Unstored;
    var p := Produce(env, n, proposer, timestamp);
    if p.result.Ok? {
      var built := Build(env, n.state, Unstored(env, n.disk, n.pools.transactions), n.pools, n.latest.header.height + 1);
      SealKeepsIds(env, n, built, proposer, timestamp);
      var unsigned := Unsealed(env, n, built, proposer, timestamp).header;
      assert unsigned.proposer == proposer && unsigned.proposerSignature == None;
    }
  }

  /** The identities of a block do not depend on its roots and its signature. */
  lemma SealKeepsIds(env: Env, n: NodeView, built: Built, proposer: Option<PublicKey>, timestamp: nat)
    ensures var b := Seal(env, n, built, proposer, timestamp); Rooted(env, n.genesis, b)
  {
    hide Ids;
  }

  /** A block that is taken in keeps to its turn, is signed, and its roots are right. */
  lemma ImportedInTurn(env: Env, n: NodeView, b: Block)
    requires Import(env, n, b).result.Ok? && env.blockId(b.header) !in n.disk.blocks
    ensures InTurn(env, n.genesis, b.header) && Rooted(env, n.genesis, b)
    ensures b.header.proposer.Some? ==> n.genesis.validators != [] && b.header.proposer.value in KeysOf(n.genesis.validators)
    ensures b.header.proposer.None? ==> n.genesis.validators == [] || IsDevnet(n.genesis.chainId)
  {
    hide ReplayBlock, BlockIds, Committed, RemoveIds, IsDevnet;
  }

  lemma FaucetInTurn(env: Env, n: NodeView, a: Address, amount: u128, timestamp: nat)
    ensures var p := Faucet(env, n, a, amount, timestamp);
            p.result.Ok? ==> InTurn(env, n.genesis, p.result.value.header) && Rooted(env, n.genesis, p.result.value)
  {
    hide BlockIds, IsDevnet;
    var s := CreditDevnet(n.state, a, amount);
    if s.Ok? {
      SealKeepsIds(env, n, Built(s.value, [], [], [], [], [], []), None, timestamp);
    }
  }

  lemma ExtendedInTurn(env: Env, n: NodeView, b: Block, s: Snapshot)
    requires StoredInTurn(env, n) && InTurn(env, n.genesis, b.header) && Rooted(env, n.genesis, b)
    ensures StoredInTurn(env, Extended(env, n, b, s))
  {
    hide InTurn, Rooted, Indexed;
  }

  lemma StepKeepsTurns(env: Env, n: NodeView, e: Event)
    requires HeadersHashApart(env) && HeaderSignaturesVerify(env) && ChainOk(env, n) && StoredInTurn(env, n)
    ensures StoredInTurn(env, NodeStep(env, n, e))
  {
    hide InTurn, Rooted, Produce, Import, Faucet, Submit, FinalizeVotes, Open, Extended, Follows, ChainOk,
         HeaderSignaturesVerify;
    match e
    case Submitted(op) => SubmitKeepsChain(env, n, op);
    case Produced(proposer, timestamp) =>
      ProducedFollows(env, n, proposer, timestamp);
      ProducedInTurn(env, n, proposer, timestamp);
      RefusedProduction(env, n, proposer, timestamp);
      var p := Produce(env, n, proposer, timestamp);
      if p.result.Ok? { ExtendedInTurn(env, n.(pools := EMPTY_POOLS), p.result.value, p.view.state); }
    case Fauceted(a, amount, timestamp) =>
      FaucetFollows(env, n, a, amount, timestamp);
      FaucetInTurn(env, n, a, amount, timestamp);
      var p := Faucet(env, n, a, amount, timestamp);
      if p.result.Ok? { ExtendedInTurn(env, n, p.result.value, p.view.state); }
    case Imported(b) =>
      ImportedFollows(env, n, b);
      if Import(env, n, b).result.Ok? && env.blockId(b.header) !in n.disk.blocks {
        ImportedInTurn(env, n, b);
        ExtendedInTurn(env, n, b, Import(env, n, b).view.state);
      }
    case Counted(ballot) => CountedKeepsBlocks(env, n, ballot);
    case Restarted => RestartLosesOnlyPools(env, n);
  }

  lemma RefusedProduction(env: Env, n: NodeView, proposer: Option<PublicKey>, timestamp: nat)
    ensures Produce(env, n, proposer, timestamp).result.Err? ==> Produce(env, n, proposer, timestamp).view == n
  {
    hide Build, Seal, Unstored, Extended;
  }

  lemma CountedKeepsBlocks(env: Env, n: NodeView, ballot: Ballot)
    ensures var m := FinalizeVotes(env, n, ballot).view;
            m.genesis == n.genesis && m.disk.blocks == n.disk.blocks && m.disk.transactions == n.disk.transactions
  {
    hide IsQuorum, VotesValid;
  }

  lemma {:induction false} RunsKeepTurns(env: Env, n: NodeView, events: seq<Event>)
    requires HeadersHashApart(env) && HeaderSignaturesVerify(env) && ChainOk(env, n) && StoredInTurn(env, n)
    ensures StoredInTurn(env, NodeRun(env, n, events))
    decreases |events|
  {
    hide NodeStep, StoredInTurn, HeaderSignaturesVerify;
    if events != [] {
      StepKeepsChain(env, n, events[0]);
      StepKeepsTurns(env, n, events[0]);
      hide ChainOk;
      RunsKeepTurns(env, NodeStep(env, n, events[0]), events[1..]);
    }
  }

  /** Over every run of a node that started on an empty store, whatever it produced and took in: every stored block is of
      this chain, carries the root of its operations, and names a proposer only on that proposer's turn and with its
      signature. With different keys, the blocks of one validator are one full round apart. */
  lemma ProposersTakeTurns(env: Env, genesis: GenesisConfig, events: seq<Event>)
    requires HeadersHashApart(env) && HeaderSignaturesVerify(env) && Open(env, genesis, EMPTY_DISK).result.Ok?
    ensures var n := NodeRun(env, Open(env, genesis, EMPTY_DISK).result.value, events);
            && n.genesis == genesis && StoredInTurn(env, n)
            && (genesis.validators != [] && DistinctKeys(genesis.validators) ==>
                  forall x, y | x in n.disk.blocks && y in n.disk.blocks && x != y ::
                    var g, h := n.disk.blocks[x].header, n.disk.blocks[y].header;
                    g.proposer.Some? && g.proposer == h.proposer && g.height <= h.height ==>
                      g.height + |genesis.validators| <= h.height)
  {
    hide NodeRun, NodeStep, StoredInTurn, HeaderSignaturesVerify, Open;
    var start := Open(env, genesis, EMPTY_DISK).result.value;
    FreshStart(env, genesis);
    RunsKeepTurns(env, start, events);
    RunsKeepChain(env, start, events);
    var n := NodeRun(env, start, events);
    if genesis.validators != [] && DistinctKeys(genesis.validators) {
      forall x, y | x in n.disk.blocks && y in n.disk.blocks && x != y
          && n.disk.blocks[x].header.proposer.Some?
          && n.disk.blocks[x].header.proposer == n.disk.blocks[y].header.proposer
          && n.disk.blocks[x].header.height <= n.disk.blocks[y].header.height
        ensures n.disk.blocks[x].header.height + |genesis.validators| <= n.disk.blocks[y].header.height
      {
        ARoundApart(env, n, x, y);
      }
    }
  }

  lemma FreshStart(env: Env, genesis: GenesisConfig)
    requires Open(env, genesis, EMPTY_DISK).result.Ok?
    ensures var n := Open(env, genesis, EMPTY_DISK).result.value;
            n.genesis == genesis && ChainOk(env, n) && StoredInTurn(env, n)
  {
    FreshNodeHasChain(env, genesis);
    hide InitialState, ChainOk;
    var first := GenesisBlock(env, genesis, InitialState(genesis).value);
    assert BlockIds(env, first) == [];
    var n := Open(env, genesis, EMPTY_DISK).result.value;
    assert n.disk.blocks == map[env.blockId(first.header) := first];
  }

  lemma ARoundApart(env: Env, n: NodeView, x: Hash, y: Hash)
    requires ChainOk(env, n) && StoredInTurn(env, n) && n.genesis.validators != [] && DistinctKeys(n.genesis.validators)
    requires x in n.disk.blocks && y in n.disk.blocks && x != y
    requires n.disk.blocks[x].header.proposer.Some? && n.disk.blocks[x].header.proposer == n.disk.blocks[y].header.proposer
    requires n.disk.blocks[x].header.height <= n.disk.blocks[y].header.height
    ensures n.disk.blocks[x].header.height + |n.genesis.validators| <= n.disk.blocks[y].header.height
  {
    hide Marks, StartsAt, DistinctKeys, Rooted;
    var g, h := n.disk.blocks[x].header, n.disk.blocks[y].header;
    assert InTurn(env, n.genesis, g) && InTurn(env, n.genesis, h);
    assert g.height != h.height by {
      assert n.disk.heights[g.height] == x && n.disk.heights[h.height] == y;
    }
    hide Linked;
    if h.height < g.height + |n.genesis.validators| {
      var i :| 0 <= i < |n.genesis.validators| && n.genesis.validators[i].publicKey == g.proposer.value;
      OneTurnEach(n.genesis.validators, g.height, i);
      assert false;
    }
  }
}
