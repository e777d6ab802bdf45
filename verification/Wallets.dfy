/** Two wallets, two address decoders, one transfer to sign. */
module Wallets {
  import opened Wrappers
  import opened Core
  import opened Signing
  import Bech32m = Address
  import Regroup

  const PREFIX := "mna"
  const PAYLOAD_BYTES := Bech32m.PAYLOAD_BYTES
  const LIBRARY_LIMIT := 90

  /** A transfer as the user enters it: addresses as text. */
  datatype Draft = Draft(
    chainId: seq<byte>, nonce: nat, from: string, to: string, amount: nat, fee: nat, publicKey: seq<byte>,
    memo: seq<byte>)

  /* ---------- the web wallet decodes by itself ---------- */

  lemma DecodedIsBytes(s: string)
    ensures var raw := Bech32m.Decode(s);
            raw.Some? ==> forall i :: 0 <= i < |raw.value| ==> raw.value[i] < 256
  {
    hide Bech32m.Verified, Bech32m.LastOne, Bech32m.Symbols, Regroup.Regrouped;
    if Bech32m.Decode(s).Some? {
      var data := Bech32m.Symbols(s[Bech32m.LastOne(s).value + 1..]).value;
      RegroupedIsBytes(if |data| < 6 then [] else data[..|data| - 6]);
    }
  }

  lemma RegroupedIsBytes(data: seq<nat>)
    ensures var raw := Regroup.Regrouped(data, 5, 8, false); forall i :: 0 <= i < |raw| ==> raw[i] < 256
  {
    Bech32m.Widths();
    Regroup.RegroupedIsNarrow(data, 5, 8, false);
  }

  function WebDecode(s: string): Option<seq<byte>> {
    DecodedIsBytes(s);
    var raw := Bech32m.Decode(s);
    if raw.None? then None else Some(raw.value)
  }

  /** The bytes the web wallet signs; `None` where it throws. */
  function WebBytes(d: Draft): Option<seq<byte>> {
    var from, to := WebDecode(d.from), WebDecode(d.to);
    if from.None? || to.None? then None
    else Some(WebUnsigned(d.chainId, from.value, to.value, d.nonce, d.amount, d.fee, d.publicKey, d.memo))
  }

  /* ---------- the SDK asks a library ---------- */

  datatype Read = Read(prefix: string, bytes: seq<byte>)

  /** The Bech32m library: prefix and bytes of a text, or `None` where it throws. */
  type Library = string -> Option<Read>

  function SdkDecode(library: Library, s: string): Option<seq<byte>> {
    var r := library(s);
    if r.None? || r.value.prefix != PREFIX then None
    else if |r.value.bytes| != PAYLOAD_BYTES || r.value.bytes[0] != 1 then None
    else Some(r.value.bytes)
  }

  /** The bytes the SDK signs for version 1; `None` where it throws. */
  function SdkBytes(library: Library, d: Draft): Option<seq<byte>> {
    var from, to := SdkDecode(library, d.from), SdkDecode(library, d.to);
    if from.None? || to.None? then None
    else
      Some(EncodeTransfer(UnsignedTransfer(1, d.chainId, d.nonce, from.value, to.value, d.amount, d.fee, d.publicKey,
                                           d.memo)))
  }

  /** A prefix of lower-case printable characters. */
  predicate Printable(prefix: string) {
    prefix != "" && forall i :: 0 <= i < |prefix| ==> '!' <= prefix[i] <= '~' && !('A' <= prefix[i] <= 'Z')
  }

  predicate IsPayload(bytes: seq<byte>) {
    |bytes| == PAYLOAD_BYTES && bytes[0] == 1
  }

  /** What the section "Bech32m" of BIP-350 asks of the library: it reads back what the encoding writes. */
  ghost predicate ReadsBech32m(library: Library) {
    forall prefix: string, bytes: seq<byte> |
      Printable(prefix) && IsPayload(bytes) && |Bech32m.Encode(prefix, bytes)| <= LIBRARY_LIMIT ::
      library(Bech32m.Encode(prefix, bytes)) == Some(Read(prefix, bytes))
  }

  /** A draft whose addresses are encodings of these payloads under these prefixes. */
  predicate Addressed(d: Draft, fromPrefix: string, from: seq<byte>, toPrefix: string, to: seq<byte>) {
    && Printable(fromPrefix) && IsPayload(from) && d.from == Bech32m.Encode(fromPrefix, from)
    && Printable(toPrefix) && IsPayload(to) && d.to == Bech32m.Encode(toPrefix, to)
    && |d.from| <= LIBRARY_LIMIT && |d.to| <= LIBRARY_LIMIT
  }

  /** The web wallet signs for addresses of any prefix, and the SDK signs the same bytes if and only if both prefixes
      are the chain's; otherwise it refuses. */
  lemma WalletsAgreeExactly(library: Library, d: Draft, fromPrefix: string, from: seq<byte>, toPrefix: string,
      to: seq<byte>)
    requires ReadsBech32m(library) && Addressed(d, fromPrefix, from, toPrefix, to)
    ensures WebBytes(d).Some?
    ensures if fromPrefix == PREFIX && toPrefix == PREFIX then SdkBytes(library, d) == WebBytes(d)
            else SdkBytes(library, d).None?
  {
    hide Bech32m.Encode, Bech32m.Decode, WebUnsigned, EncodeTransfer;
    Bech32m.AddressRoundTrip(fromPrefix, from);
    Bech32m.AddressRoundTrip(toPrefix, to);
    assert library(d.from) == Some(Read(fromPrefix, from)) && library(d.to) == Some(Read(toPrefix, to));
    WalletsAgree(UnsignedTransfer(1, d.chainId, d.nonce, from, to, d.amount, d.fee, d.publicKey, d.memo));
  }
}
