/** The bytes that wallets sign: written piece by piece, equal to the wire format of the chain, and unambiguous. */
module Signing {
  import opened Wrappers
  import opened Core
  import opened Postcard
  import opened Versioned

  /* ---------- the varint loops ---------- */

  /** The loop shared by both wallets: seven bits at a time, the high bit set while something remains. */
  method VarintLoop(value: nat) returns (out: seq<byte>)
    ensures out == EncodeVarint(value)
  {
    var n := value;
    out := [];
    while true
      invariant out + EncodeVarint(n) == EncodeVarint(value)
      decreases n
    {
      var low := n % 128;
      var rest := n / 128;
      if rest == 0 {
        assert EncodeVarint(n) == [low];
        return out + [low];
      }
      assert out + EncodeVarint(n) == out + [low + 128] + EncodeVarint(rest);
      out := out + [low + 128];
      n := rest;
    }
  }

  /* ---------- transfers ---------- */

  /** A transfer to be signed; addresses already decoded, texts already in UTF-8. */
  datatype UnsignedTransfer = UnsignedTransfer(
    version: nat, chainId: seq<byte>, nonce: nat, from: seq<byte>, to: seq<byte>, amount: nat, fee: nat,
    publicKey: seq<byte>, memo: seq<byte>)

  function WireString(text: seq<byte>): seq<byte> {
    EncodeVarint(|text|) + text
  }

  /** The SDK's order of parts. */
  function EncodeTransfer(t: UnsignedTransfer): seq<byte>
    requires t.version < 256
  {
    [t.version] + WireString(t.chainId) + EncodeVarint(t.nonce) + t.from + t.to + EncodeVarint(t.amount)
    + EncodeVarint(t.fee) + t.publicKey + WireString(t.memo)
  }

  /** The web wallet's own routine, with version and chain fixed. */
  function WebUnsigned(chainId: seq<byte>, from: seq<byte>, to: seq<byte>, nonce: nat, amount: nat, fee: nat,
                       publicKey: seq<byte>, memo: seq<byte>): seq<byte> {
    [1] + (EncodeVarint(|chainId|) + chainId) + EncodeVarint(nonce) + from + to + EncodeVarint(amount)
    + EncodeVarint(fee) + publicKey + (EncodeVarint(|memo|) + memo)
  }

  lemma WalletsAgree(t: UnsignedTransfer)
    requires t.version == 1
    ensures WebUnsigned(t.chainId, t.from, t.to, t.nonce, t.amount, t.fee, t.publicKey, t.memo) == EncodeTransfer(t)
  {
  }

  function TransferValue(t: UnsignedTransfer): Value {
    Items([Num(t.version), Chars(t.chainId), Num(t.nonce), Chars(t.from), Chars(t.to), Num(t.amount), Num(t.fee),
           Chars(t.publicKey), Chars(t.memo)])
  }

  /** Fields of the widths the chain's types have. */
  predicate WellFormedTransfer(utf8: Utf8, t: UnsignedTransfer) {
    HasShape(utf8, UNSIGNED_TRANSFER, TransferValue(t))
  }

  lemma TransferParts(t: UnsignedTransfer)
    requires t.version < 256
    ensures Encode(UNSIGNED_TRANSFER, TransferValue(t)) == EncodeTransfer(t)
  {
    hide EncodeVarint;
    var s, items := UNSIGNED_TRANSFER, TransferValue(t).items;
    assert EncodeParts(s, 9, items) == [];
    assert EncodeParts(s, 8, items) == WireString(t.memo);
    assert EncodeParts(s, 7, items) == t.publicKey + WireString(t.memo);
    assert EncodeParts(s, 6, items) == EncodeVarint(t.fee) + (t.publicKey + WireString(t.memo));
    assert EncodeParts(s, 5, items) == EncodeVarint(t.amount) + EncodeParts(s, 6, items);
    assert EncodeParts(s, 4, items) == t.to + EncodeParts(s, 5, items);
    assert EncodeParts(s, 3, items) == t.from + EncodeParts(s, 4, items);
    assert EncodeParts(s, 2, items) == EncodeVarint(t.nonce) + EncodeParts(s, 3, items);
    assert EncodeParts(s, 1, items) == WireString(t.chainId) + EncodeParts(s, 2, items);
    assert EncodeParts(s, 0, items) == [t.version] + EncodeParts(s, 1, items);
  }

  lemma TransferIsWireFormat(utf8: Utf8, t: UnsignedTransfer)
    requires WellFormedTransfer(utf8, t)
    ensures t.version < 256 && Encode(UNSIGNED_TRANSFER, TransferValue(t)) == EncodeTransfer(t)
  {
    VersionFits(utf8, t);
    TransferParts(t);
  }

  lemma VersionFits(utf8: Utf8, t: UnsignedTransfer)
    requires WellFormedTransfer(utf8, t)
    ensures t.version < 256
  {
    assert HasShape(utf8, UNSIGNED_TRANSFER.parts[0], TransferValue(t).items[0]);
  }

  /** Two transfers with the same signing bytes are the same transfer. */
  lemma TransfersAreUnambiguous(utf8: Utf8, t: UnsignedTransfer, u: UnsignedTransfer)
    requires WellFormedTransfer(utf8, t) && WellFormedTransfer(utf8, u)
    requires t.version < 256 && u.version < 256 && EncodeTransfer(t) == EncodeTransfer(u)
    ensures t == u
  {
    hide HasShape, Encode, EncodeTransfer;
    TransferParts(t);
    TransferParts(u);
    PrefixFree(utf8, UNSIGNED_TRANSFER, TransferValue(t), [], TransferValue(u), []);
    assert TransferValue(t) == TransferValue(u);
    var a, b := TransferValue(t).items, TransferValue(u).items;
    assert a[0] == b[0] && a[1] == b[1] && a[2] == b[2] && a[3] == b[3] && a[4] == b[4] && a[5] == b[5];
    assert a[6] == b[6] && a[7] == b[7] && a[8] == b[8];
  }

  /* ---------- swaps ---------- */

  const COLON: byte := 58
  const NATIVE: seq<byte> := [110, 97, 116, 105, 118, 101]
  const USDC_DECIMALS: byte := 6

  /** The first colon at or after an index, or the length. */
  function ColonFrom(s: seq<byte>, i: nat): (k: nat)
    requires i <= |s|
    ensures i <= k <= |s| && (k < |s| ==> s[k] == COLON) && forall j :: i <= j < k ==> s[j] != COLON
    decreases |s| - i
  {
    if i == |s| || s[i] == COLON then i else ColonFrom(s, i + 1)
  }

  datatype AssetFields = AssetFields(namespace: seq<byte>, symbol: seq<byte>, contract: Option<seq<byte>>)

  /** A canonical asset identity taken apart at its first two colons; `None` where the SDK throws. */
  function FieldsOf(canonical: seq<byte>): Option<AssetFields> {
    var first := ColonFrom(canonical, 0);
    if first < 1 || first == |canonical| then None
    else
      var second := ColonFrom(canonical, first + 1);
      if second == |canonical| then None
      else
        var reference := canonical[second + 1..];
        var contract := if reference == NATIVE then None else Some(reference);
        Some(AssetFields(canonical[..first], canonical[first + 1..second], contract))
  }

  function Joined(f: AssetFields): seq<byte> {
    f.namespace + [COLON] + f.symbol + [COLON] + (if f.contract.Some? then f.contract.value else NATIVE)
  }

  /** Taking an identity apart loses nothing. */
  lemma FieldsJoinBack(canonical: seq<byte>)
    requires FieldsOf(canonical).Some?
    ensures Joined(FieldsOf(canonical).value) == canonical
  {
    var first := ColonFrom(canonical, 0);
    var second := ColonFrom(canonical, first + 1);
    assert canonical == canonical[..first] + [COLON] + canonical[first + 1..second] + [COLON] + canonical[second + 1..];
  }

  datatype UnsignedSwap = UnsignedSwap(
    version: nat, chainId: seq<byte>, nonce: nat, from: seq<byte>, mints: bool, collateral: seq<byte>,
    amountUsdc: nat, amountMna: nat, fee: nat, publicKey: seq<byte>, memo: seq<byte>)

  function ContractBytes(contract: Option<seq<byte>>): seq<byte> {
    if contract.None? then [0] else [1] + WireString(contract.value)
  }

  function KindByte(mints: bool): byte {
    if mints then 0 else 1
  }

  function SwapHead(w: UnsignedSwap): seq<byte>
    requires w.version < 256
  {
    [w.version] + WireString(w.chainId) + EncodeVarint(w.nonce) + w.from + [KindByte(w.mints)]
  }

  function AssetPart(f: AssetFields): seq<byte> {
    WireString(f.namespace) + WireString(f.symbol) + ContractBytes(f.contract) + [USDC_DECIMALS]
  }

  function SwapTail(w: UnsignedSwap): seq<byte> {
    EncodeVarint(w.amountUsdc) + EncodeVarint(w.amountMna) + EncodeVarint(w.fee) + w.publicKey + WireString(w.memo)
  }

  function EncodeSwap(w: UnsignedSwap): Option<seq<byte>>
    requires w.version < 256
  {
    var asset := FieldsOf(w.collateral);
    if asset.None? then None else Some(SwapHead(w) + AssetPart(asset.value) + SwapTail(w))
  }

  function AssetValue(f: AssetFields): Value {
    Items([Chars(f.namespace), Chars(f.symbol), if f.contract.None? then Absent else Present(Chars(f.contract.value)),
           Num(USDC_DECIMALS)])
  }

  function SwapValue(w: UnsignedSwap, f: AssetFields): Value {
    Items([Num(w.version), Chars(w.chainId), Num(w.nonce), Chars(w.from), Num(KindByte(w.mints)), AssetValue(f),
           Num(w.amountUsdc), Num(w.amountMna), Num(w.fee), Chars(w.publicKey), Chars(w.memo)])
  }

  predicate WellFormedSwap(utf8: Utf8, w: UnsignedSwap) {
    var f := FieldsOf(w.collateral);
    f.Some? && HasShape(utf8, UNSIGNED_SWAP, SwapValue(w, f.value)) && w.version < 256
  }

  lemma AssetBytes(f: AssetFields)
    ensures Encode(ASSET_ID, AssetValue(f)) == AssetPart(f)
  {
    hide EncodeVarint;
    var s, items := ASSET_ID, AssetValue(f).items;
    assert EncodeParts(s, 4, items) == [];
    assert EncodeParts(s, 3, items) == [USDC_DECIMALS];
    assert EncodeParts(s, 2, items) == ContractBytes(f.contract) + [USDC_DECIMALS];
    assert EncodeParts(s, 1, items) == WireString(f.symbol) + EncodeParts(s, 2, items);
    assert EncodeParts(s, 0, items) == WireString(f.namespace) + EncodeParts(s, 1, items);
  }

  lemma KindBytes(mints: bool)
    ensures EncodeVarint(KindByte(mints)) == [KindByte(mints)]
  {
  }

  lemma SwapIsWireFormat(w: UnsignedSwap)
    requires w.version < 256 && FieldsOf(w.collateral).Some?
    ensures EncodeSwap(w) == Some(Encode(UNSIGNED_SWAP, SwapValue(w, FieldsOf(w.collateral).value)))
  {
    hide FieldsOf, AssetPart, SwapHead, SwapTail, EncodeParts, EncodeVarint;
    var f := FieldsOf(w.collateral).value;
    HeadBytes(w, f);
    AssetBytes(f);
    TailBytes(w, f);
    MiddleBytes(w, f);
    assert SwapHead(w) + (AssetPart(f) + SwapTail(w)) == SwapHead(w) + AssetPart(f) + SwapTail(w);
  }

  lemma HeadBytes(w: UnsignedSwap, f: AssetFields)
    requires w.version < 256
    ensures EncodeParts(UNSIGNED_SWAP, 0, SwapValue(w, f).items)
            == SwapHead(w) + EncodeParts(UNSIGNED_SWAP, 5, SwapValue(w, f).items)
  {
    hide EncodeVarint, AssetValue;
    var s, items := UNSIGNED_SWAP, SwapValue(w, f).items;
    KindBytes(w.mints);
    var rest := EncodeParts(s, 5, items);
    assert EncodeParts(s, 4, items) == [KindByte(w.mints)] + rest;
    assert EncodeParts(s, 3, items) == w.from + EncodeParts(s, 4, items);
    assert EncodeParts(s, 2, items) == EncodeVarint(w.nonce) + EncodeParts(s, 3, items);
    assert EncodeParts(s, 1, items) == WireString(w.chainId) + EncodeParts(s, 2, items);
    assert EncodeParts(s, 0, items) == [w.version] + EncodeParts(s, 1, items);
  }

  lemma MiddleBytes(w: UnsignedSwap, f: AssetFields)
    ensures EncodeParts(UNSIGNED_SWAP, 5, SwapValue(w, f).items)
            == Encode(ASSET_ID, AssetValue(f)) + EncodeParts(UNSIGNED_SWAP, 6, SwapValue(w, f).items)
  {
    hide EncodeVarint, AssetValue;
  }

  lemma TailBytes(w: UnsignedSwap, f: AssetFields)
    ensures EncodeParts(UNSIGNED_SWAP, 6, SwapValue(w, f).items) == SwapTail(w)
  {
    hide EncodeVarint;
    var s, items := UNSIGNED_SWAP, SwapValue(w, f).items;
    assert EncodeParts(s, 11, items) == [];
    assert EncodeParts(s, 10, items) == WireString(w.memo);
    assert EncodeParts(s, 9, items) == w.publicKey + WireString(w.memo);
    assert EncodeParts(s, 8, items) == EncodeVarint(w.fee) + EncodeParts(s, 9, items);
    assert EncodeParts(s, 7, items) == EncodeVarint(w.amountMna) + EncodeParts(s, 8, items);
  }

  /** Two swaps with the same signing bytes are the same swap, collateral text included. */
  lemma SwapsAreUnambiguous(utf8: Utf8, w: UnsignedSwap, x: UnsignedSwap)
    requires WellFormedSwap(utf8, w) && WellFormedSwap(utf8, x) && EncodeSwap(w) == EncodeSwap(x)
    ensures w == x
  {
    hide HasShape, Encode, EncodeSwap, FieldsOf, Joined;
    var f, g := FieldsOf(w.collateral).value, FieldsOf(x.collateral).value;
    SwapIsWireFormat(w);
    SwapIsWireFormat(x);
    PrefixFree(utf8, UNSIGNED_SWAP, SwapValue(w, f), [], SwapValue(x, g), []);
    var a, b := SwapValue(w, f).items, SwapValue(x, g).items;
    assert a == b;
    assert a[0] == b[0] && a[1] == b[1] && a[2] == b[2] && a[3] == b[3] && a[4] == b[4] && a[5] == b[5];
    assert a[6] == b[6] && a[7] == b[7] && a[8] == b[8] && a[9] == b[9] && a[10] == b[10];
    SameAsset(f, g);
    FieldsJoinBack(w.collateral);
    FieldsJoinBack(x.collateral);
  }

  lemma SameAsset(f: AssetFields, g: AssetFields)
    requires AssetValue(f) == AssetValue(g)
    ensures f == g
  {
    var a, b := AssetValue(f).items, AssetValue(g).items;
    assert a[0] == b[0] && a[1] == b[1] && a[2] == b[2];
  }
}
