/** What an importer's check of the state root is worth: the root covers only the fields of its layout. */
module ImportedRoots {
  import opened Wrappers
  import opened Core
  import opened Ledger
  import opened Replay
  import opened Nodes
  import opened BlockReplay
  import Postcard
  import Versioned

  /** A state written down as the nineteen values of a stored snapshot. */
  type Writer = Snapshot -> seq<Postcard.Value>

  /** The root of a state is a digest of the bytes of the layout it needs. */
  predicate RootOf(env: Env, write: Writer, digest: seq<byte> -> Hash, s: Snapshot) {
    |write(s)| == 19 && env.stateRoot(s) == digest(Versioned.Preimage(write(s)))
  }

  ghost predicate CollisionFree(digest: seq<byte> -> Hash) {
    forall a, b :: digest(a) == digest(b) ==> a == b
  }

  /** The two states need the same layout and agree on its fields. */
  predicate SameCovered(v: seq<Postcard.Value>, w: seq<Postcard.Value>)
    requires |v| == 19 && |w| == 19
  {
    Versioned.RootLayout(v) == Versioned.RootLayout(w)
    && v[..Versioned.RootLayout(v)] == w[..Versioned.RootLayout(w)]
  }

  /** Equal roots mean agreement on the covered fields, and no more. */
  lemma RootsMean(env: Env, utf8: Versioned.Utf8, write: Writer, digest: seq<byte> -> Hash, s: Snapshot, t: Snapshot)
    requires RootOf(env, write, digest, s) && RootOf(env, write, digest, t) && CollisionFree(digest)
    requires Versioned.FieldsHaveShape(utf8, Versioned.SNAPSHOT, write(s))
    requires Versioned.FieldsHaveShape(utf8, Versioned.SNAPSHOT, write(t))
    ensures env.stateRoot(s) == env.stateRoot(t) <==> SameCovered(write(s), write(t))
  {
    hide Versioned.FieldsHaveShape, Versioned.Preimage, Versioned.RootLayout;
    Versioned.RootsAgreeExactly(utf8, write(s), write(t));
  }

  /** A node in the producer's state accepts a produced block if and only if the proposal is allowed, the block's
      operations replay, and the outcome agrees with the producer's state on the fields the root covers. */
  lemma ImportAcceptsExactly(env: Env, n: NodeView, m: NodeView, proposer: Option<PublicKey>, timestamp: nat,
      utf8: Versioned.Utf8, write: Writer, digest: seq<byte> -> Hash)
    requires HeaderSignaturesVerify(env) && CollisionFree(digest)
    requires m.genesis == n.genesis && m.state == n.state && m.latest == n.latest
    requires Produce(env, n, proposer, timestamp).result.Ok?
    requires env.blockId(Produce(env, n, proposer, timestamp).result.value.header) !in m.disk.blocks
    requires forall s :: RootOf(env, write, digest, s)
    requires var p := Produce(env, n, proposer, timestamp);
             var replay := ReplayBlock(env, n.state, p.result.value);
             && Versioned.FieldsHaveShape(utf8, Versioned.SNAPSHOT, write(p.view.state))
             && (replay.Ok? ==> Versioned.FieldsHaveShape(utf8, Versioned.SNAPSHOT, write(replay.value)))
    ensures var p := Produce(env, n, proposer, timestamp);
            var i, replay := Import(env, m, p.result.value), ReplayBlock(env, n.state, p.result.value);
            && (replay.Ok? ==> RootOf(env, write, digest, replay.value))
            && RootOf(env, write, digest, p.view.state)
            && (i.result.Ok? <==> ProposalAllowed(n, proposer) && replay.Ok?
                                  && SameCovered(write(replay.value), write(p.view.state)))
            && (i.result.Ok? ==> i.view.state == replay.value)
  {
    hide Build, BlockIds, Contains, Sift, ReplayBlock, CheckProposer, Seal, HeaderSignaturesVerify, SameCovered, RootOf,
         CollisionFree, Versioned.FieldsHaveShape;
    var p := Produce(env, n, proposer, timestamp);
    var replay := ReplayBlock(env, n.state, p.result.value);
    ProducedHeaderPasses(env, n, proposer, timestamp);
    ProducedRootsPass(env, n, proposer, timestamp);
    assert RootOf(env, write, digest, p.view.state);
    if replay.Ok? {
      assert RootOf(env, write, digest, replay.value);
      RootsMean(env, utf8, write, digest, replay.value, p.view.state);
    }
    assert CheckHeader(env, m, p.result.value.header) == CheckHeader(env, n, p.result.value.header);
  }

  /** An importer that accepted the block is in another state than the producer exactly when the fields the root does
      not cover differ, which is exactly when the producer's pending operations were not clean. */
  lemma AcceptedImportDivergesExactly(env: Env, n: NodeView, m: NodeView, proposer: Option<PublicKey>, timestamp: nat,
      utf8: Versioned.Utf8, write: Writer, digest: seq<byte> -> Hash)
    requires Metered(env) && HeaderSignaturesVerify(env) && CollisionFree(digest) && PoolsDistinct(env, n.pools)
    requires m.genesis == n.genesis && m.state == n.state && m.latest == n.latest
    requires Produce(env, n, proposer, timestamp).result.Ok?
    requires env.blockId(Produce(env, n, proposer, timestamp).result.value.header) !in m.disk.blocks
    requires forall s :: RootOf(env, write, digest, s)
    requires var p := Produce(env, n, proposer, timestamp);
             var replay := ReplayBlock(env, n.state, p.result.value);
             && Versioned.FieldsHaveShape(utf8, Versioned.SNAPSHOT, write(p.view.state))
             && (replay.Ok? ==> Versioned.FieldsHaveShape(utf8, Versioned.SNAPSHOT, write(replay.value)))
             && (replay.Ok? && write(replay.value) == write(p.view.state) ==> replay.value == p.view.state)
    requires Import(env, m, Produce(env, n, proposer, timestamp).result.value).result.Ok?
    ensures var p := Produce(env, n, proposer, timestamp);
            var i := Import(env, m, p.result.value);
            var mine, theirs := write(i.view.state), write(p.view.state);
            && |mine| == 19 && |theirs| == 19 && SameCovered(mine, theirs)
            && (i.view.state == p.view.state
                <==> mine[Versioned.RootLayout(mine)..] == theirs[Versioned.RootLayout(mine)..])
            && (i.view.state == p.view.state <==> Clean(env, n.state, PendingOps(env, n)))
  {
    hide Produce, Import, ReplayBlock, Clean, PendingOps, PoolsDistinct, HeaderSignaturesVerify, Metered, CollisionFree,
         ProposalAllowed, Versioned.FieldsHaveShape, Versioned.RootLayout, Versioned.Preimage;
    ImportAcceptsExactly(env, n, m, proposer, timestamp, utf8, write, digest);
    ProducedBlockReplaysExactly(env, n, proposer, timestamp);
    var p := Produce(env, n, proposer, timestamp);
    var mine, theirs := write(Import(env, m, p.result.value).view.state), write(p.view.state);
    var k := Versioned.RootLayout(mine);
    assert mine == mine[..k] + mine[k..] && theirs == theirs[..k] + theirs[k..];
  }

  /* ---------- a fork nobody notices ---------- */

  const NO_ASSETS := AssetBook(map[], {}, map[])
  const NO_TOKENS := TokenBook(map[], {}, map[], {})
  const NO_PROGRAMS := ProgramBook(map[], map[], map[])

  /** Each value depends on its own part of the state, and empty parts are written as empty. */
  ghost predicate FieldByField(write: Writer) {
    && (forall s :: |write(s)| == 19)
    && (forall s: Snapshot, t: Snapshot ::
          s.chainId == t.chainId && s.feeMinimum == t.feeMinimum && s.native == t.native ==>
          write(s)[..4] == write(t)[..4])
    && (forall s: Snapshot :: s.assets == NO_ASSETS ==> Versioned.EmptyRange(write(s), 4, 7))
    && (forall s: Snapshot :: s.tokens == NO_TOKENS ==> Versioned.EmptyRange(write(s), 7, 11))
    && (forall s: Snapshot :: s.programs == NO_PROGRAMS ==> Versioned.EmptyRange(write(s), 16, 19))
  }

  /** How the single entries of a state are written. */
  datatype Spelling = Spelling(
    text: string -> Postcard.Value,
    account: (Address, Account) -> Postcard.Value,
    wallet: (Address, map<string, u128>) -> Postcard.Value,
    hash: Hash -> Postcard.Value,
    asset: (Hash, AssetOperation) -> Postcard.Value,
    definition: (Hash, TokenDefinition) -> Postcard.Value,
    token: (Hash, TokenOperation) -> Postcard.Value,
    frozen: ((Hash, Address)) -> Postcard.Value,
    reserve: ReserveLedger -> Postcard.Value,
    swap: (Hash, MnaSwapOperation) -> Postcard.Value,
    reserveOperation: (Hash, MnaReserveOperation) -> Postcard.Value,
    program: (string, ProgramRecord) -> Postcard.Value,
    receipt: (Hash, ProgramReceipt) -> Postcard.Value,
    closed: (string, nat) -> Postcard.Value)

  /** The entries of a map, in an order that depends on the map only. */
  ghost function Entries<K(!new), V(!new)>(m: map<K, V>, entry: (K, V) -> Postcard.Value): seq<Postcard.Value> {
    if m == map[] then []
    else
      var k :| k in m;
      [entry(k, m[k])] + Entries(m - {k}, entry)
  }

  ghost function Members<T(!new)>(s: set<T>, entry: T -> Postcard.Value): seq<Postcard.Value> {
    if s == {} then []
    else
      var x :| x in s;
      [entry(x)] + Members(s - {x}, entry)
  }

  /** The nineteen values of a stored snapshot. */
  ghost function Flattened(w: Spelling, s: Snapshot): seq<Postcard.Value> {
    [ w.text(s.chainId), Postcard.Num(s.feeMinimum), Postcard.Num(s.native.feePool),
      Postcard.Items(Entries(s.native.accounts, w.account)),
      Postcard.Items(Entries(s.assets.balances, w.wallet)),
      Postcard.Items(Members(s.assets.processed, w.hash)),
      Postcard.Items(Entries(s.assets.records, w.asset)),
      Postcard.Items(Entries(s.tokens.definitions, w.definition)),
      Postcard.Items(Members(s.tokens.processed, w.hash)),
      Postcard.Items(Entries(s.tokens.records, w.token)),
      Postcard.Items(Members(s.tokens.frozen, w.frozen)),
      w.reserve(s.mna.reserve),
      Postcard.Items(Members(s.mna.processedSwaps, w.hash)),
      Postcard.Items(Entries(s.mna.swapRecords, w.swap)),
      Postcard.Items(Members(s.mna.processedReserves, w.hash)),
      Postcard.Items(Entries(s.mna.reserveRecords, w.reserveOperation)),
      Postcard.Items(Entries(s.programs.live, w.program)),
      Postcard.Items(Entries(s.programs.receipts, w.receipt)),
      Postcard.Items(Entries(s.programs.closed, w.closed)) ]
  }

  ghost function Flattening(w: Spelling): Writer {
    s => Flattened(w, s)
  }

  lemma NothingToWrite(w: Spelling)
    ensures Entries(map[], w.wallet) == [] && Members({}, w.hash) == [] && Entries(map[], w.asset) == []
    ensures Entries(map[], w.definition) == [] && Entries(map[], w.token) == [] && Members({}, w.frozen) == []
    ensures Entries(map[], w.program) == [] && Entries(map[], w.receipt) == []
    ensures Entries<string, nat>(map[], w.closed) == []
  {
  }

  lemma FlattenedNative(w: Spelling, s: Snapshot, t: Snapshot)
    requires s.chainId == t.chainId && s.feeMinimum == t.feeMinimum && s.native == t.native
    ensures Flattened(w, s)[..4] == Flattened(w, t)[..4]
  {
    hide Entries, Members;
    var v, u := Flattened(w, s), Flattened(w, t);
    assert v[0] == u[0] && v[1] == u[1] && v[2] == u[2] && v[3] == u[3];
  }

  lemma FlattenedNothing(w: Spelling, s: Snapshot)
    ensures |Flattened(w, s)| == 19
    ensures s.assets == NO_ASSETS ==> Versioned.EmptyRange(Flattened(w, s), 4, 7)
    ensures s.tokens == NO_TOKENS ==> Versioned.EmptyRange(Flattened(w, s), 7, 11)
    ensures s.programs == NO_PROGRAMS ==> Versioned.EmptyRange(Flattened(w, s), 16, 19)
  {
    NothingToWrite(w);
    hide Entries, Members;
    var v := Flattened(w, s);
    assert s.assets == NO_ASSETS ==>
           v[4] == Versioned.EMPTY && v[5] == Versioned.EMPTY && v[6] == Versioned.EMPTY;
    assert s.tokens == NO_TOKENS ==>
           v[7] == Versioned.EMPTY && v[8] == Versioned.EMPTY && v[9] == Versioned.EMPTY && v[10] == Versioned.EMPTY;
    assert s.programs == NO_PROGRAMS ==>
           v[16] == Versioned.EMPTY && v[17] == Versioned.EMPTY && v[18] == Versioned.EMPTY;
  }

  /** However the entries are spelled, the flattened state is written field by field. */
  lemma FlatteningIsFieldByField(w: Spelling)
    ensures FieldByField(Flattening(w))
  {
    hide Flattened, Versioned.EmptyRange;
    forall s: Snapshot
      ensures |Flattening(w)(s)| == 19
      ensures s.assets == NO_ASSETS ==> Versioned.EmptyRange(Flattening(w)(s), 4, 7)
      ensures s.tokens == NO_TOKENS ==> Versioned.EmptyRange(Flattening(w)(s), 7, 11)
      ensures s.programs == NO_PROGRAMS ==> Versioned.EmptyRange(Flattening(w)(s), 16, 19)
    {
      FlattenedNothing(w, s);
    }
    forall s: Snapshot, t: Snapshot | s.chainId == t.chainId && s.feeMinimum == t.feeMinimum && s.native == t.native
      ensures Flattening(w)(s)[..4] == Flattening(w)(t)[..4]
    {
      FlattenedNothing(w, s);
      FlattenedNothing(w, t);
      FlattenedNative(w, s, t);
    }
  }

  /** Without assets, tokens and programs the root covers the native fields only. */
  lemma NativeRoots(env: Env, write: Writer, digest: seq<byte> -> Hash, s: Snapshot, t: Snapshot)
    requires FieldByField(write) && RootOf(env, write, digest, s) && RootOf(env, write, digest, t)
    requires s.assets == NO_ASSETS && s.tokens == NO_TOKENS && s.programs == NO_PROGRAMS && t == s.(mna := t.mna)
    ensures env.stateRoot(s) == env.stateRoot(t)
  {
    hide Versioned.EncodeFields;
  }

  lemma SwapRejected(env: Env, s: Snapshot, o: MnaSwapOperation)
    requires ValidateSwap(env, s, o).Ok? && o.unsigned.kind == MintMna && s.assets == NO_ASSETS
    requires env.swapId(o.unsigned) !in s.mna.processedSwaps
    ensures var step := ApplySwap(env, s, o);
            && step.outcome.Failed? && step.state == s.(mna := step.state.mna)
            && env.swapId(o.unsigned) in step.state.mna.processedSwaps
  {
    hide CanonicalKey, IsSupportedUsdc;
    SwapIdentity(env, s, o);
  }

  lemma OnlySwapBuilds(env: Env, s: Snapshot, o: MnaSwapOperation, height: nat)
    requires ApplySwap(env, s, o).outcome.Failed?
    ensures Build(env, s, [], EMPTY_POOLS.(swaps := [o]), height)
            == Built(ApplySwap(env, s, o).state, [], [], [], [], [], [])
  {
    var s' := ApplySwap(env, s, o).state;
    assert Apply(env, s, AsSwap(o)) == ApplySwap(env, s, o);
    hide Apply, ApplySwap;
    assert [o][1..] == [];
    assert Sift(env, s', [], AsSwap) == Sifted(s', []);
    assert Sift(env, s, [o], AsSwap) == Sifted(s', []);
  }

  lemma EmptyBlockReplays(env: Env, s: Snapshot, b: Block)
    requires b.transactions == [] && b.assetOperations == [] && b.tokenOperations == [] && b.swapOperations == []
    requires b.reserveOperations == [] && b.programOperations == []
    ensures ReplayBlock(env, s, b) == Ok(s)
  {
  }

  /** An empty block whose state root is the importer's own. */
  lemma EmptyBlockIsImported(env: Env, n: NodeView, m: NodeView, proposer: Option<PublicKey>, timestamp: nat)
    requires HeaderSignaturesVerify(env) && ProposalAllowed(n, proposer)
    requires m.genesis == n.genesis && m.state == n.state && m.latest == n.latest
    requires var p := Produce(env, n, proposer, timestamp);
             && p.result.Ok? && env.blockId(p.result.value.header) !in m.disk.blocks
             && BlockOps(p.result.value) == [] && env.stateRoot(p.view.state) == env.stateRoot(n.state)
    ensures var p := Produce(env, n, proposer, timestamp);
            var i := Import(env, m, p.result.value);
            i.result.Ok? && i.view.state == n.state && i.view.latest == p.view.latest
  {
    hide Build, BlockIds, Contains, Sift, ReplayBlock, CheckProposer, Seal, HeaderSignaturesVerify, ProposalAllowed;
    var p := Produce(env, n, proposer, timestamp);
    ProducedHeaderPasses(env, n, proposer, timestamp);
    ProducedRootsPass(env, n, proposer, timestamp);
    EmptyBlockReplays(env, n.state, p.result.value);
    assert CheckHeader(env, m, p.result.value.header) == CheckHeader(env, n, p.result.value.header);
  }

  /** A producer tries a swap that its signer cannot pay. The block comes out empty, every importer accepts it, and from
      then on the producer alone remembers the swap as processed. */
  lemma RejectedSwapForks(env: Env, n: NodeView, m: NodeView, o: MnaSwapOperation, timestamp: nat, w: Spelling,
      digest: seq<byte> -> Hash)
    requires forall s :: RootOf(env, Flattening(w), digest, s)
    requires n.state.assets == NO_ASSETS && n.state.tokens == NO_TOKENS && n.state.programs == NO_PROGRAMS
    requires n.pools == EMPTY_POOLS.(swaps := [o]) && ValidateSwap(env, n.state, o).Ok? && o.unsigned.kind == MintMna
    requires env.swapId(o.unsigned) !in n.state.mna.processedSwaps
    requires m.genesis == n.genesis && m.state == n.state && m.latest == n.latest && ProposalAllowed(n, None)
    requires HeaderSignaturesVerify(env)
    requires env.blockId(Produce(env, n, None, timestamp).result.value.header) !in m.disk.blocks
    ensures var p := Produce(env, n, None, timestamp);
            var i := Import(env, m, p.result.value);
            && p.result.Ok? && i.result.Ok?
            && i.view.latest == p.view.latest && i.view.state == n.state && p.view.state != n.state
            && env.swapId(o.unsigned) in p.view.state.mna.processedSwaps
            && env.swapId(o.unsigned) !in i.view.state.mna.processedSwaps
  {
    hide ApplySwap, Build, ValidateSwap, HeaderSignaturesVerify, RootOf, FieldByField, BlockIds, Contains, Import,
         Flattening;
    var p, write := Produce(env, n, None, timestamp), Flattening(w);
    FlatteningIsFieldByField(w);
    SwapRejected(env, n.state, o);
    OnlySwapBuilds(env, n.state, o, n.latest.header.height + 1);
    assert RootOf(env, write, digest, n.state) && RootOf(env, write, digest, p.view.state);
    NativeRoots(env, write, digest, n.state, p.view.state);
    EmptyBlockIsImported(env, n, m, None, timestamp);
  }
}
