/** The block store: keyed trees written one after the other. Values are kept decoded here; their bytes are the
    subject of `Versioned`. */
module Storage {
  import opened Wrappers
  import opened Core

  datatype StorageError = Missing | Corrupt | ChainIdMismatch | GenesisMismatch

  datatype Meta = Meta(
    chainId: Option<string>, genesisHash: Option<Hash>, latestHeight: Option<nat>, latestHash: Option<Hash>,
    finalizedHeight: Option<nat>, finalizedHash: Option<Hash>)

  datatype Disk = Disk(
    blocks: map<Hash, Block>, heights: map<nat, Hash>, transactions: map<Hash, Transaction>,
    state: Option<Snapshot>, meta: Meta)

  const EMPTY_DISK := Disk(map[], map[], map[], None, Meta(None, None, None, None, None, None))

  datatype Written<T> = Written(disk: Disk, result: Result<T, StorageError>)

  function Found<T>(value: Option<T>): Result<T, StorageError> {
    match value
    case Some(v) => Ok(v)
    case None => Err(Missing)
  }

  function GetBlock(d: Disk, hash: Hash): Result<Block, StorageError> {
    if hash in d.blocks then Ok(d.blocks[hash]) else Err(Missing)
  }

  function GetBlockByHeight(d: Disk, height: nat): Result<Block, StorageError> {
    if height in d.heights then GetBlock(d, d.heights[height]) else Err(Missing)
  }

  function LatestBlock(d: Disk): Result<Block, StorageError> {
    var hash :- Found(d.meta.latestHash);
    GetBlock(d, hash)
  }

  /** The transaction index after the block's transactions, in order. */
  function Indexed(env: Env, m: map<Hash, Transaction>, txs: seq<Transaction>): map<Hash, Transaction>
    decreases |txs|
  {
    if txs == [] then m else Indexed(env, m[env.txId(txs[0].unsigned) := txs[0]], txs[1..])
  }

  function Committed(env: Env, d: Disk, hash: Hash, block: Block, s: Snapshot): Disk {
    Disk(d.blocks[hash := block], d.heights[block.header.height := hash],
         Indexed(env, d.transactions, block.transactions), Some(s),
         d.meta.(latestHeight := Some(block.header.height), latestHash := Some(hash)))
  }

  function SetFinalized(d: Disk, height: nat, hash: Hash): Disk {
    d.(meta := d.meta.(finalizedHeight := Some(height), finalizedHash := Some(hash)))
  }

  /** The marker moves to a stored block of that height, never back. */
  function Marked(d: Disk, height: nat, hash: Hash): Written<()> {
    if hash !in d.blocks then Written(d, Err(Missing))
    else if d.blocks[hash].header.height != height then Written(d, Err(Corrupt))
    else if d.meta.finalizedHeight.None? then Written(d, Err(Missing))
    else if height < d.meta.finalizedHeight.value then Written(d, Ok(()))
    else Written(SetFinalized(d, height, hash), Ok(()))
  }

  function Ensured(env: Env, d: Disk, chainId: string, block: Block, s: Snapshot): Written<Hash> {
    var hash := env.blockId(block.header);
    if d.meta.chainId.Some? then
      if d.meta.chainId.value != chainId then Written(d, Err(ChainIdMismatch))
      else if d.meta.genesisHash.None? then Written(d, Err(Corrupt))
      else if d.meta.genesisHash.value != hash then Written(d, Err(GenesisMismatch))
      else if d.meta.finalizedHeight.None? then Written(SetFinalized(d, 0, hash), Ok(hash))
      else Written(d, Ok(hash))
    else
      var named := d.(meta := d.meta.(chainId := Some(chainId), genesisHash := Some(hash)));
      Written(Committed(env, SetFinalized(named, 0, hash), hash, block, s), Ok(hash))
  }

  class Store {
    const env: Env
    var blocks: map<Hash, Block>
    var heights: map<nat, Hash>
    var transactions: map<Hash, Transaction>
    var state: Option<Snapshot>
    var meta: Meta

    constructor (env: Env, d: Disk)
      ensures this.env == env && View() == d
    {
      this.env := env;
      blocks, heights, transactions, state, meta := d.blocks, d.heights, d.transactions, d.state, d.meta;
    }

    /** What the trees hold. */
    function View(): Disk
      reads this
    {
      Disk(blocks, heights, transactions, state, meta)
    }

    method EnsureGenesis(chainId: string, block: Block, s: Snapshot) returns (r: Result<Hash, StorageError>)
      modifies this
      ensures Written(View(), r) == Ensured(env, old(View()), chainId, block, s)
    {
      var hash := env.blockId(block.header);
      if meta.chainId.Some? {
        if meta.chainId.value != chainId {
          return Err(ChainIdMismatch);
        }
        if meta.genesisHash.None? {
          return Err(Corrupt);
        }
        if meta.genesisHash.value != hash {
          return Err(GenesisMismatch);
        }
        if meta.finalizedHeight.None? {
          meta := meta.(finalizedHeight := Some(0));
          meta := meta.(finalizedHash := Some(hash));
        }
        return Ok(hash);
      }
      meta := meta.(chainId := Some(chainId));
      meta := meta.(genesisHash := Some(hash));
      meta := meta.(finalizedHeight := Some(0));
      meta := meta.(finalizedHash := Some(hash));
      Commit(hash, block, s);
      return Ok(hash);
    }

    method MarkFinalized(height: nat, hash: Hash) returns (r: Result<(), StorageError>)
      modifies this
      ensures Written(View(), r) == Marked(old(View()), height, hash)
    {
      if hash !in blocks {
        return Err(Missing);
      }
      if blocks[hash].header.height != height {
        return Err(Corrupt);
      }
      if meta.finalizedHeight.None? {
        return Err(Missing);
      }
      if height < meta.finalizedHeight.value {
        return Ok(());
      }
      meta := meta.(finalizedHeight := Some(height));
      meta := meta.(finalizedHash := Some(hash));
      return Ok(());
    }

    method Commit(hash: Hash, block: Block, s: Snapshot)
      modifies this
      ensures View() == Committed(env, old(View()), hash, block, s)
    {
      blocks := blocks[hash := block];
      heights := heights[block.header.height := hash];
      state := Some(s);
      var txs := block.transactions;
      for i := 0 to |txs|
        invariant Indexed(env, transactions, txs[i..]) == Indexed(env, old(transactions), txs)
        invariant blocks == old(blocks)[hash := block] && heights == old(heights)[block.header.height := hash]
        invariant state == Some(s) && meta == old(meta)
      {
        assert txs[i..][1..] == txs[i + 1..];
        transactions := transactions[env.txId(txs[i].unsigned) := txs[i]];
      }
      meta := meta.(latestHeight := Some(block.header.height));
      meta := meta.(latestHash := Some(hash));
    }
  }
}
