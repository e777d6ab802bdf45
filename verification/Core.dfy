/** The values that travel on the chain: identities, operations, blocks and the ledger snapshot. */
module Core {
  import opened Wrappers

  const U64_MAX: nat := 0xFFFF_FFFF_FFFF_FFFF
  const U128_MAX: nat := 0xFFFF_FFFF_FFFF_FFFF_FFFF_FFFF_FFFF_FFFF
  const MAX_MEMO_BYTES := 256
  /** Two micro-USDC stand for one micro-MNA. */
  const MNA_USDC_DENOMINATOR := 2
  const LAMPORTS_PER_SOL := 1_000_000_000

  type u64 = n: nat | n <= U64_MAX
  type u128 = n: nat | n <= U128_MAX
  type byte = n: nat | n < 256

  /** What `+` computes on u128 in a release build. */
  function WrappingAdd(a: u128, b: u128): u128 {
    (a + b) % (U128_MAX + 1)
  }

  /** What `-` computes on u128 in a release build. */
  function WrappingSub(a: u128, b: u128): u128 {
    (a - b) % (U128_MAX + 1)
  }

  function SaturatingSub(a: u128, b: u128): u128 {
    if a < b then 0 else a - b
  }

  function SaturatingAdd(a: u128, b: u128): u128 {
    if a + b > U128_MAX then U128_MAX else a + b
  }

  function SaturatingDouble(a: u128): u128 {
    if 2 * a > U128_MAX then U128_MAX else 2 * a
  }

  /* ---------- identities ---------- */

  /** A digest, named by its hexadecimal text. SHA-256 is treated as collision free wherever a lemma
      asks for it, so the type has to be unbounded. */
  datatype Hash = Hash(hex: string)
  datatype Address = Address(text: string)
  datatype PublicKey = PublicKey(text: string)
  datatype Signature = Signature(text: string)

  const ZERO_HASH := Hash("0000000000000000000000000000000000000000000000000000000000000000")

  datatype AssetId = AssetId(namespace: string, symbol: string, contract: Option<string>, decimals: nat)

  function CanonicalKey(id: AssetId): string {
    id.namespace + ":" + id.symbol + ":" + (if id.contract.Some? then id.contract.value else "native")
  }

  function CustomAsset(tokenId: Hash, symbol: string, decimals: nat): AssetId {
    AssetId("intertrain", symbol, Some("token:" + tokenId.hex), decimals)
  }

  function LowerChar(c: char): char {
    if 'A' <= c <= 'Z' then (c as int + 32) as char else c
  }

  function AsciiLower(s: string): (r: string)
    ensures |r| == |s|
    ensures forall i :: 0 <= i < |s| ==> r[i] == LowerChar(s[i])
  {
    seq(|s|, i requires 0 <= i < |s| => LowerChar(s[i]))
  }

  const SEPOLIA_USDC := "sepolia:0x1c7D4B196Cb0C7B01d743Fbc6116a902379C7238"
  const DEVNET_USDC := "devnet:4zMMC9srt5Ri5X14GAgXhaHii3GnPAEERYPJgZJDncDU"

  /** The Sepolia contract, in any letter case. */
  predicate IsSepoliaUsdc(reference: string) {
    AsciiLower(reference) == AsciiLower(SEPOLIA_USDC)
  }

  predicate IsDevnetUsdc(reference: string) {
    reference == DEVNET_USDC
  }

  predicate IsSupportedUsdc(id: AssetId) {
    || (id.namespace == "ethereum" && id.symbol == "USDC" && id.decimals == 6
        && id.contract.Some? && IsSepoliaUsdc(id.contract.value))
    || (id.namespace == "solana" && id.symbol == "USDC" && id.decimals == 6
        && id.contract.Some? && IsDevnetUsdc(id.contract.value))
  }

  /** Wrapped USDC of the Sepolia contract. */
  const USDC := AssetId("ethereum", "USDC", Some(SEPOLIA_USDC), 6)

  lemma UsdcIsSupported()
    ensures IsSupportedUsdc(USDC)
  {
  }

  predicate IsSupportedSol(id: AssetId) {
    id.namespace == "solana" && id.symbol == "SOL" && id.decimals == 9 && id.contract == Some("devnet:native")
  }

  /* ---------- operations ---------- */

  datatype UnsignedTransaction = UnsignedTransaction(
    version: nat, chainId: string, nonce: u64, from: Address, to: Address,
    amount: u128, fee: u128, publicKey: PublicKey, memo: string)
  datatype Transaction = Transaction(unsigned: UnsignedTransaction, signature: Signature)

  datatype AssetOperationKind = BridgeMint | BridgeBurn
  datatype AssetOperation = AssetOperation(
    version: nat, operationId: Hash, kind: AssetOperationKind, assetId: AssetId, address: Address,
    destination: string, amount: u128, externalTransaction: string, memo: string)

  datatype MnaSwapKind = MintMna | RedeemMna
  datatype UnsignedMnaSwap = UnsignedMnaSwap(
    version: nat, chainId: string, nonce: u64, from: Address, kind: MnaSwapKind, collateralAsset: AssetId,
    amountUsdc: u128, amountMna: u128, fee: u128, publicKey: PublicKey, memo: string)
  datatype MnaSwapOperation = MnaSwapOperation(unsigned: UnsignedMnaSwap, signature: Signature)

  datatype MnaReserveKind = VerifyDeposit | Release
  datatype MnaReserveOperation = MnaReserveOperation(
    version: nat, operationId: Hash, kind: MnaReserveKind, collateralAsset: AssetId, address: Address,
    amountUsdc: u128, amountMna: u128, collateralAmount: u128, oraclePrice: u128, oracleTimestamp: u64,
    feeMna: u128, destination: string, externalTransaction: string, memo: string)

  datatype TokenKind =
    | Create | TokenTransfer | TokenMint | TokenBurn | SetAuthorities
    | Freeze | Unfreeze | Pause | Unpause | UpdateMetadata
  datatype UnsignedTokenOperation = UnsignedTokenOperation(
    version: nat, chainId: string, nonce: u64, from: Address, kind: TokenKind, tokenId: Hash,
    to: Option<Address>, amount: u128, fee: u128, publicKey: PublicKey, name: string, symbol: string,
    decimals: nat, maxSupply: Option<u128>, mintAuthority: Option<Address>, burnAuthority: Option<Address>,
    freezeAuthority: Option<Address>, metadataUri: string, metadataHash: Hash, memo: string)
  datatype TokenOperation = TokenOperation(unsigned: UnsignedTokenOperation, signature: Signature)

  datatype ProgramKind = Deploy | Call | StorageSet | Close
  datatype ProgramOperation = ProgramOperation(
    version: nat, chainId: string, kind: ProgramKind, nonce: u64, fee: u128, programId: string,
    package: seq<byte>, gasLimit: u64, key: string, value: string, publicKey: PublicKey, signature: Signature)

  /* ---------- the ledger ---------- */

  datatype Account = Account(balance: u128, nonce: u64)

  datatype ReserveLedger = ReserveLedger(
    verifiedUsdc: u128, releasedUsdc: u128, backedMna: u128, redeemedMna: u128,
    verifiedLamports: u128, releasedLamports: u128, verifiedSolUsd: u128, releasedSolUsd: u128, paused: bool)

  const EMPTY_RESERVE := ReserveLedger(0, 0, 0, 0, 0, 0, 0, 0, false)

  datatype TokenDefinition = TokenDefinition(
    tokenId: Hash, creator: Address, name: string, symbol: string, decimals: nat, totalSupply: u128,
    maxSupply: Option<u128>, mintAuthority: Option<Address>, burnAuthority: Option<Address>,
    freezeAuthority: Option<Address>, metadataUri: string, metadataHash: Hash, paused: bool)

  datatype ProgramRecord = ProgramRecord(
    package: seq<byte>, creator: Address, deployedAt: nat, storage: map<string, string>)

  datatype ProgramReceipt = ProgramReceipt(
    programId: string, kind: ProgramKind, status: string, returnData: seq<byte>, gasUsed: u64,
    gasLimit: u64, feePaid: u128, error: Option<string>)

  datatype NativeBook = NativeBook(feePool: u128, accounts: map<Address, Account>)

  datatype AssetBook = AssetBook(
    balances: map<Address, map<string, u128>>, processed: set<Hash>, records: map<Hash, AssetOperation>)

  datatype TokenBook = TokenBook(
    definitions: map<Hash, TokenDefinition>, processed: set<Hash>, records: map<Hash, TokenOperation>,
    frozen: set<(Hash, Address)>)

  datatype MnaBook = MnaBook(
    reserve: ReserveLedger, processedSwaps: set<Hash>, swapRecords: map<Hash, MnaSwapOperation>,
    processedReserves: set<Hash>, reserveRecords: map<Hash, MnaReserveOperation>)

  datatype ProgramBook = ProgramBook(
    live: map<string, ProgramRecord>, receipts: map<Hash, ProgramReceipt>, closed: map<string, nat>)

  /** The fields of the source's `State` and `StateSnapshot`, grouped by the operations that write them. */
  datatype Snapshot = Snapshot(
    chainId: string,
    feeMinimum: u128,
    native: NativeBook,
    assets: AssetBook,
    tokens: TokenBook,
    mna: MnaBook,
    programs: ProgramBook)

  /* ---------- genesis ---------- */

  datatype Validator = Validator(name: string, publicKey: PublicKey)
  datatype GenesisAllocation = GenesisAllocation(address: Address, balance: u128)

  datatype GenesisConfig = GenesisConfig(
    chainId: string, genesisTime: nat, initialSupply: u128, feeMinimum: u128,
    validators: seq<Validator>, allocations: seq<GenesisAllocation>)

  /* ---------- blocks ---------- */

  datatype BlockHeader = BlockHeader(
    version: nat, chainId: string, height: nat, parentHash: Hash, timestamp: nat,
    transactionRoot: Hash, stateRoot: Hash, proposer: Option<PublicKey>, proposerSignature: Option<Signature>)

  datatype Block = Block(
    header: BlockHeader,
    transactions: seq<Transaction>,
    assetOperations: seq<AssetOperation>,
    tokenOperations: seq<TokenOperation>,
    swapOperations: seq<MnaSwapOperation>,
    reserveOperations: seq<MnaReserveOperation>,
    programOperations: seq<ProgramOperation>)

  datatype Vote = Vote(
    version: nat, chainId: string, height: nat, round: nat, blockHash: Hash, validator: PublicKey, signature: Signature)

  /* ---------- the functions the chain calls and does not define ---------- */

  datatype RunResult = RunOk(data: seq<byte>, used: u64) | RunErr(message: string)

  /** Digests, signature checks, the program loader and the program engine. The digests of transfers, token operations
      and swaps cover the unsigned part; those of reserve and program operations cover everything, the signature of a
      program operation included. */
  datatype Env = Env(
    txId: UnsignedTransaction -> Hash,
    tokenOpId: UnsignedTokenOperation -> Hash,
    tokenIdOf: Hash -> Hash,
    swapId: UnsignedMnaSwap -> Hash,
    reserveId: MnaReserveOperation -> Hash,
    programOpId: ProgramOperation -> Hash,
    addressOf: PublicKey -> Address,
    txSigned: Transaction -> bool,
    tokenSigned: TokenOperation -> bool,
    swapSigned: MnaSwapOperation -> bool,
    programSigned: ProgramOperation -> bool,
    faucetKey: PublicKey,
    packageId: seq<byte> -> Option<string>,
    execute: (seq<byte>, u64) -> RunResult,
    stateRoot: Snapshot -> Hash,
    merkleRoot: seq<Hash> -> Hash,
    blockId: BlockHeader -> Hash,
    headerSigned: BlockHeader -> bool,
    signHeader: (PublicKey, BlockHeader) -> Signature,
    voteSigned: Vote -> bool,
    signVote: (PublicKey, Vote) -> Signature)

  /** The program engine never reports more gas than it was given. */
  ghost predicate Metered(env: Env) {
    forall p: seq<byte>, g: u64 :: env.execute(p, g).RunOk? ==> env.execute(p, g).used <= g
  }

  /* ---------- reading asset identities ---------- */

  predicate ColonFree(s: string) {
    ':' !in s
  }

  function FirstColon(s: string): (i: nat)
    ensures i <= |s| && ColonFree(s[..i]) && (i < |s| ==> s[i] == ':')
  {
    if s == "" || s[0] == ':' then 0
    else
      var i := 1 + FirstColon(s[1..]);
      assert s[..i] == [s[0]] + s[1..][..i - 1];
      i
  }

  function UpperChar(c: char): char {
    if 'a' <= c <= 'z' then (c as int - 32) as char else c
  }

  function AsciiUpper(s: string): string {
    seq(|s|, i requires 0 <= i < |s| => UpperChar(s[i]))
  }

  function ExternalDecimals(symbol: string): Option<nat> {
    var upper := AsciiUpper(symbol);
    if upper == "WETH" then Some(18)
    else if upper == "WSOL" || upper == "SOL" then Some(9)
    else if upper == "USDC" then Some(6)
    else None
  }

  /** `namespace:symbol:reference`, split at the first two colons. */
  function ParseAssetId(value: string): (r: Option<AssetId>)
  {
    var i := FirstColon(value);
    if i == |value| then None
    else
      var rest := value[i + 1..];
      var j := FirstColon(rest);
      if j == |rest| then None
      else
        var namespace, symbol, reference := value[..i], rest[..j], rest[j + 1..];
        if namespace == "" || symbol == "" || reference == "" || namespace == "worldstreet" then None
        else match ExternalDecimals(symbol)
          case None => None
          case Some(d) => Some(AssetId(namespace, symbol, Some(reference), d))
  }

  /** The asset identities that `ParseAssetId` can return. */
  ghost predicate Parsed(id: AssetId) {
    exists text :: ParseAssetId(text) == Some(id)
  }

  /** Reading an asset identity and printing its key is the identity, and the parts cannot hide a colon. */
  lemma ParsePrintsBack(text: string)
    requires ParseAssetId(text).Some?
    ensures var id := ParseAssetId(text).value;
            CanonicalKey(id) == text && ColonFree(id.namespace) && ColonFree(id.symbol)
            && id.contract.Some? && ExternalDecimals(id.symbol) == Some(id.decimals)
  {
    hide FirstColon, ExternalDecimals;
    var i := FirstColon(text);
    var rest := text[i + 1..];
    var j := FirstColon(rest);
    SplitAt(text, i);
    SplitAt(rest, j);
    var id := ParseAssetId(text).value;
    assert id.namespace == text[..i] && id.symbol == rest[..j] && id.contract == Some(rest[j + 1..]);
  }

  /** Parts that are present and free of colons are read back. */
  lemma PrintedParses(namespace: string, symbol: string, reference: string, decimals: nat)
    requires ColonFree(namespace) && ColonFree(symbol) && namespace != "" && symbol != "" && reference != ""
    requires namespace != "worldstreet" && ExternalDecimals(symbol) == Some(decimals)
    ensures ParseAssetId(namespace + ":" + symbol + ":" + reference)
            == Some(AssetId(namespace, symbol, Some(reference), decimals))
  {
    hide ExternalDecimals, FirstColon;
    var text, rest := namespace + ":" + symbol + ":" + reference, symbol + ":" + reference;
    assert text == namespace + ":" + rest;
    FirstColonOf(namespace, rest);
    FirstColonOf(symbol, reference);
    TakenApart(namespace, rest);
    TakenApart(symbol, reference);
  }

  lemma TakenApart(a: string, tail: string)
    ensures var s := a + ":" + tail; |a| < |s| && s[..|a|] == a && s[|a| + 1..] == tail
  {
  }

  lemma SplitAt(s: string, i: nat)
    requires i < |s| && s[i] == ':'
    ensures s == s[..i] + ":" + s[i + 1..]
  {
  }

  lemma FirstColonOf(a: string, tail: string)
    requires ColonFree(a)
    ensures FirstColon(a + ":" + tail) == |a|
  {
    if a == "" {
      assert a + ":" + tail == ":" + tail;
    } else {
      assert (a + ":" + tail)[1..] == a[1..] + ":" + tail;
      FirstColonOf(a[1..], tail);
    }
  }

  /** A key has one reading when its first two parts are free of colons. */
  lemma KeyPartsUnique(a: string, b: string, c: string, a': string, b': string, c': string)
    requires ColonFree(a) && ColonFree(b) && ColonFree(a') && ColonFree(b')
    requires a + ":" + b + ":" + c == a' + ":" + b' + ":" + c'
    ensures a == a' && b == b' && c == c'
  {
    var t, t' := b + ":" + c, b' + ":" + c';
    var s := a + ":" + b + ":" + c;
    assert s == a + ":" + t && s == a' + ":" + t';
    FirstColonOf(a, t);
    FirstColonOf(a', t');
    assert a == s[..|a|] && a' == s[..|a'|];
    assert t == s[|a| + 1..] && t' == s[|a'| + 1..];
    FirstColonOf(b, c);
    FirstColonOf(b', c');
    assert b == t[..|b|] && b' == t'[..|b'|];
    assert c == t[|b| + 1..] && c' == t'[|b'| + 1..];
  }
}
