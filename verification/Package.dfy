/** The package format of programs: a fixed header, manifest, code, and the digest of the code. */
module Package {
  import opened Wrappers
  import opened Core

  const MAGIC: seq<byte> := [73, 84, 80, 75]
  const HEADER_BYTES := 16
  const DIGEST_BYTES := 64
  const MAX_PACKAGE_BYTES := 2 * 1024 * 1024
  const U32_MAX: nat := 0xFFFF_FFFF

  datatype PackageError = PackageTooLarge | InvalidHeader | BadEncoding | HashMismatch | InvalidCode

  /** Manifests are written and read by a JSON library, digests by SHA-256, code is checked by a WASM validator. */
  datatype Tools<!M> = Tools(
    writeManifest: M -> seq<byte>, readManifest: seq<byte> -> Option<M>, digest: seq<byte> -> seq<byte>,
    isText: seq<byte> -> bool, validCode: (seq<byte>, M) -> bool)

  datatype Program<M> = Program(manifest: M, wasm: seq<byte>, codeHash: seq<byte>)

  function LittleEndian(n: nat, count: nat): (b: seq<byte>)
    ensures |b| == count
  {
    if count == 0 then [] else [n % 256] + LittleEndian(n / 256, count - 1)
  }

  function FromLittleEndian(b: seq<byte>): nat {
    if b == [] then 0 else b[0] + 256 * FromLittleEndian(b[1..])
  }

  function Header(manifest: nat, wasm: nat): (h: seq<byte>)
    ensures |h| == HEADER_BYTES
  {
    MAGIC + LittleEndian(1, 2) + LittleEndian(manifest, 4) + LittleEndian(wasm, 4) + [0, 0]
  }

  function Encode<M>(t: Tools<M>, p: Program<M>): Result<seq<byte>, PackageError> {
    var manifest := t.writeManifest(p.manifest);
    if |manifest| > U32_MAX || |p.wasm| > U32_MAX then Err(PackageTooLarge)
    else
      var out := Header(|manifest|, |p.wasm|) + manifest + p.wasm + p.codeHash;
      if |out| > MAX_PACKAGE_BYTES then Err(PackageTooLarge) else Ok(out)
  }

  function Verify<M>(t: Tools<M>, p: Program<M>): Result<(), PackageError> {
    if p.codeHash != t.digest(p.wasm) then Err(HashMismatch)
    else if !t.validCode(p.wasm, p.manifest) then Err(InvalidCode)
    else Ok(())
  }

  function Decode<M>(t: Tools<M>, b: seq<byte>): Result<Program<M>, PackageError> {
    if |b| > MAX_PACKAGE_BYTES || |b| < HEADER_BYTES + DIGEST_BYTES then Err(InvalidHeader)
    else if b[..4] != MAGIC || FromLittleEndian(b[4..6]) != 1 then Err(InvalidHeader)
    else
      var wasmStart := HEADER_BYTES + FromLittleEndian(b[6..10]);
      var hashStart := wasmStart + FromLittleEndian(b[10..14]);
      if hashStart + DIGEST_BYTES != |b| then Err(BadEncoding)
      else
        var manifest := t.readManifest(b[HEADER_BYTES..wasmStart]);
        if manifest.None? || !t.isText(b[hashStart..]) then Err(BadEncoding)
        else
          var p := Program(manifest.value, b[wasmStart..hashStart], b[hashStart..]);
          var _ :- Verify(t, p);
          Ok(p)
  }

  /** The identity of a program: a fixed prefix and the first forty characters of its code's digest. */
  function ProgramId<M>(p: Program<M>): string
    requires |p.codeHash| >= 40
  {
    "it1" + AsText(p.codeHash[..40])
  }

  function AsText(b: seq<byte>): (s: string)
    ensures |s| == |b|
  {
    if b == [] then "" else [b[0] as char] + AsText(b[1..])
  }

  /** The loader of the ledger: the identity of what the bytes decode to. */
  function LoadedId<M>(t: Tools<M>, b: seq<byte>): Option<string> {
    var p := Decode(t, b);
    if p.Err? then None else Some(ProgramId(p.value))
  }

  function Pow256(count: nat): nat {
    if count == 0 then 1 else 256 * Pow256(count - 1)
  }

  lemma {:induction false} LittleEndianBack(n: nat, count: nat)
    requires n < Pow256(count)
    ensures FromLittleEndian(LittleEndian(n, count)) == n
  {
    if count > 0 {
      LittleEndianBack(n / 256, count - 1);
      assert LittleEndian(n, count)[1..] == LittleEndian(n / 256, count - 1);
    }
  }

  lemma LowByte(b: byte, rest: nat)
    ensures (b + 256 * rest) % 256 == b && (b + 256 * rest) / 256 == rest
  {
  }

  lemma {:induction false} LittleEndianForth(b: seq<byte>)
    ensures LittleEndian(FromLittleEndian(b), |b|) == b && FromLittleEndian(b) < Pow256(|b|)
  {
    if b != [] {
      LowByte(b[0], FromLittleEndian(b[1..]));
      LittleEndianForth(b[1..]);
      assert b == [b[0]] + b[1..];
    }
  }

  lemma Widths()
    ensures Pow256(2) == 0x1_0000 && Pow256(4) == 0x1_0000_0000
  {
    assert Pow256(1) == 256 && Pow256(3) == 0x100_0000;
  }

  lemma HeaderSlices(manifest: nat, wasm: nat)
    ensures var h := Header(manifest, wasm);
            h[..4] == MAGIC && h[4..6] == LittleEndian(1, 2) && h[6..10] == LittleEndian(manifest, 4)
              && h[10..14] == LittleEndian(wasm, 4)
  {
    hide LittleEndian;
  }

  /** What the decoder finds in a header. */
  lemma HeaderFields(manifest: nat, wasm: nat, rest: seq<byte>)
    requires manifest <= U32_MAX && wasm <= U32_MAX
    ensures var b := Header(manifest, wasm) + rest;
            && b[..4] == MAGIC && FromLittleEndian(b[4..6]) == 1
            && FromLittleEndian(b[6..10]) == manifest && FromLittleEndian(b[10..14]) == wasm
            && b[HEADER_BYTES..] == rest
  {
    Widths();
    LittleEndianBack(1, 2);
    LittleEndianBack(manifest, 4);
    LittleEndianBack(wasm, 4);
    HeaderSlices(manifest, wasm);
    hide LittleEndian, FromLittleEndian, Header;
    var h, b := Header(manifest, wasm), Header(manifest, wasm) + rest;
    assert b[..4] == h[..4] && b[4..6] == h[4..6] && b[6..10] == h[6..10] && b[10..14] == h[10..14];
  }

  /** A package that verifies is what its encoding decodes to. */
  lemma RoundTrip<M>(t: Tools<M>, p: Program<M>)
    requires Verify(t, p).Ok? && |p.codeHash| == DIGEST_BYTES && t.isText(p.codeHash)
    requires t.readManifest(t.writeManifest(p.manifest)) == Some(p.manifest)
    ensures Encode(t, p).Ok? ==> Decode(t, Encode(t, p).value) == Ok(p)
  {
    hide Header, FromLittleEndian, Verify;
    var manifest := t.writeManifest(p.manifest);
    if Encode(t, p).Ok? {
      var b := Encode(t, p).value;
      var m, w := |manifest|, |p.wasm|;
      assert b == Header(m, w) + (manifest + p.wasm + p.codeHash);
      HeaderFields(m, w, manifest + p.wasm + p.codeHash);
      assert b[HEADER_BYTES..HEADER_BYTES + m] == manifest;
      assert b[HEADER_BYTES + m..HEADER_BYTES + m + w] == p.wasm;
      assert b[HEADER_BYTES + m + w..] == p.codeHash;
    }
  }

  lemma HeaderParts(b: seq<byte>)
    requires |b| >= HEADER_BYTES && b[..4] == MAGIC && FromLittleEndian(b[4..6]) == 1
    ensures b[..HEADER_BYTES] == Header(FromLittleEndian(b[6..10]), FromLittleEndian(b[10..14]))
            <==> b[14..16] == [0, 0]
  {
    LittleEndianForth(b[4..6]);
    LittleEndianForth(b[6..10]);
    LittleEndianForth(b[10..14]);
    hide LittleEndian, FromLittleEndian;
    var h := Header(FromLittleEndian(b[6..10]), FromLittleEndian(b[10..14]));
    assert b[..HEADER_BYTES] == b[..4] + b[4..6] + b[6..10] + b[10..14] + b[14..16];
    assert h[..14] == b[..14] && h[14..16] == [0, 0];
    assert b[..HEADER_BYTES][14..16] == b[14..16];
    assert h == h[..14] + h[14..16];
  }

  /** Where the parts of a decoded package stood. */
  lemma DecodedParts<M>(t: Tools<M>, b: seq<byte>)
    requires Decode(t, b).Ok?
    ensures var p, m, w := Decode(t, b).value, FromLittleEndian(b[6..10]), FromLittleEndian(b[10..14]);
            && b[..4] == MAGIC && FromLittleEndian(b[4..6]) == 1
            && HEADER_BYTES + m + w + DIGEST_BYTES == |b| <= MAX_PACKAGE_BYTES
            && p.wasm == b[HEADER_BYTES + m..HEADER_BYTES + m + w] && p.codeHash == b[HEADER_BYTES + m + w..]
            && b == b[..HEADER_BYTES] + b[HEADER_BYTES..HEADER_BYTES + m] + p.wasm + p.codeHash
  {
    hide FromLittleEndian, Verify;
  }

  /** What the decoder finds in an encoding. */
  lemma EncodedParts<M>(t: Tools<M>, p: Program<M>, b: seq<byte>)
    requires Encode(t, p) == Ok(b)
    ensures var manifest := t.writeManifest(p.manifest);
            && b == Header(|manifest|, |p.wasm|) + (manifest + p.wasm + p.codeHash)
            && |b| >= HEADER_BYTES + |manifest| && FromLittleEndian(b[6..10]) == |manifest|
            && b[HEADER_BYTES..HEADER_BYTES + |manifest|] == manifest
            && b[..HEADER_BYTES] == Header(|manifest|, |p.wasm|)
  {
    hide Header, FromLittleEndian;
    var manifest := t.writeManifest(p.manifest);
    HeaderFields(|manifest|, |p.wasm|, manifest + p.wasm + p.codeHash);
  }

  /** The decoder does not look at the two reserved bytes, nor at how the manifest is spelled: encoding a decoded
      package gives the same bytes back exactly when both were as the encoder writes them. */
  lemma ReencodesExactly<M>(t: Tools<M>, b: seq<byte>)
    requires Decode(t, b).Ok?
    ensures var p, m := Decode(t, b).value, FromLittleEndian(b[6..10]);
            && HEADER_BYTES + m <= |b|
            && (Encode(t, p) == Ok(b)
                <==> b[14..16] == [0, 0] && t.writeManifest(p.manifest) == b[HEADER_BYTES..HEADER_BYTES + m])
  {
    hide Header, FromLittleEndian, Decode;
    DecodedParts(t, b);
    HeaderParts(b);
    var p := Decode(t, b).value;
    if Encode(t, p) == Ok(b) {
      EncodedParts(t, p, b);
    }
  }

  /** The two reserved bytes take no part in decoding. */
  lemma ReservedIsIgnored<M>(t: Tools<M>, b: seq<byte>, x: byte)
    requires |b| >= HEADER_BYTES
    ensures Decode(t, b[14 := x]) == Decode(t, b)
  {
    hide FromLittleEndian, Verify;
    var c := b[14 := x];
    assert c[..4] == b[..4] && c[4..6] == b[4..6] && c[6..10] == b[6..10] && c[10..14] == b[10..14];
    assert c[HEADER_BYTES..] == b[HEADER_BYTES..];
    forall i, j | HEADER_BYTES <= i <= j <= |b| ensures c[i..j] == b[i..j] {
      assert c[i..j] == c[HEADER_BYTES..][i - HEADER_BYTES..j - HEADER_BYTES];
      assert b[i..j] == b[HEADER_BYTES..][i - HEADER_BYTES..j - HEADER_BYTES];
    }
    forall i | HEADER_BYTES <= i <= |b| ensures c[i..] == b[i..] {
      assert c[i..] == c[i..|b|] && b[i..] == b[i..|b|];
    }
  }

  /** Every encoding has a twin with a reserved byte set, which decodes to the same package and is not what the encoder
      writes for it. */
  lemma ReservedByteIsLost<M>(t: Tools<M>, p: Program<M>)
    requires Verify(t, p).Ok? && |p.codeHash| == DIGEST_BYTES && t.isText(p.codeHash)
    requires t.readManifest(t.writeManifest(p.manifest)) == Some(p.manifest) && Encode(t, p).Ok?
    ensures var b := Encode(t, p).value;
            |b| >= HEADER_BYTES && Decode(t, b[14 := 1]) == Ok(p) && Encode(t, p) != Ok(b[14 := 1])
  {
    hide Decode, Header, Verify;
    RoundTrip(t, p);
    var b := Encode(t, p).value;
    EncodedParts(t, p, b);
    ReservedIsIgnored(t, b, 1);
    EndsInZero(|t.writeManifest(p.manifest)|, |p.wasm|);
    assert b[14] == b[..HEADER_BYTES][14];
  }

  lemma EndsInZero(manifest: nat, wasm: nat)
    ensures Header(manifest, wasm)[14] == 0
  {
    hide LittleEndian;
  }
}
