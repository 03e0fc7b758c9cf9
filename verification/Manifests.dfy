/** Asset manifests: the canonical bytes, and reading exactly those. */
module Manifests {
  import opened Prelude
  import opened Texts
  import opened Readers
  import opened Commands

  const MANIFEST_MAGIC := Ascii("OWAMNF01")
  const CANONICAL_LIMIT := 310
  const BLOB_BYTE_LIMIT := 65536

  const BAD_MANIFEST := "INVALID_MANIFEST"

  datatype Manifest = Manifest(version: u32, contentHash: Text, decodedLength: u32, mediaType: Text, source: Text, license: Text)

  /** A failed reading is reported under the reader's code. */
  function OrFail<T>(o: Option<T>, code: string): Result<T, string> {
    match o
    case Some(v) => Ok(v)
    case None => Err(code)
  }

  // Digests as text

  predicate ValidHash(t: Text) {
    |t| == 64 && HexText(t)
  }

  function HexOf(b: Bytes): (t: Text)
    ensures |t| == 2 * |b| && HexText(t)
  {
    if b == [] then [] else [Digit(b[0] / 16), Digit(b[0] % 16)] + HexOf(b[1..])
  }

  function Nibble(c: byte): (n: nat)
    requires HexByte(c)
    ensures n < 16
  {
    if c <= 0x39 then c - 0x30 else c - 0x61 + 10
  }

  function Unhex(t: Text): (b: Bytes)
    requires HexText(t) && |t| % 2 == 0
    ensures |b| == |t| / 2
  {
    if t == [] then [] else [Nibble(t[0]) * 16 + Nibble(t[1])] + Unhex(t[2..])
  }

  lemma {:induction false} UnhexHex(b: Bytes)
    ensures Unhex(HexOf(b)) == b
  {
    if b != [] {
      UnhexHex(b[1..]);
      assert HexOf(b)[2..] == HexOf(b[1..]);
      assert b == [b[0]] + b[1..];
    }
  }

  lemma {:induction false} HexUnhex(t: Text)
    requires HexText(t) && |t| % 2 == 0
    ensures HexOf(Unhex(t)) == t
  {
    if t != [] {
      HexUnhex(t[2..]);
      assert Unhex(t)[1..] == Unhex(t[2..]);
      assert t == [t[0], t[1]] + t[2..];
    }
  }

  // Short texts

  /** A u16 length, truncated as the source casts it, and the octets, in front of `rest`. */
  function Short(t: Text, rest: Bytes): Bytes {
    LE(|t|, 2) + (t + rest)
  }

  function TakeU16(b: Bytes): Option<(nat, Bytes)> {
    TakeInt(b, 2)
  }

  function TakeShort(b: Bytes, maximum: nat, code: string, limitCode: string): Result<(Text, Bytes), string> {
    var (n, rest) :- OrFail(TakeU16(b), code);
    if n > maximum then Err(limitCode) else OrFail(TakeRaw(rest, n), code)
  }

  lemma ShortReads(t: Text, rest: Bytes, maximum: nat, code: string, limitCode: string)
    requires |t| <= maximum && |t| < 0x1_0000
    ensures TakeShort(Short(t, rest), maximum, code, limitCode) == Ok((t, rest))
  {
    Widths();
    RawReads(LE(|t|, 2), t + rest);
    ReadBackLE(|t|, 2);
    RawReads(t, rest);
  }

  lemma ShortWritten(b: Bytes, maximum: nat, code: string, limitCode: string)
    ensures TakeShort(b, maximum, code, limitCode).Ok? ==>
      var (t, rest) := TakeShort(b, maximum, code, limitCode).value;
      b == Short(t, rest) && |t| <= maximum && |t| < 0x1_0000
  {
    if TakeShort(b, maximum, code, limitCode).Ok? {
      Widths();
      RawWritten(b, 2);
      WriteBackLE(b[..2]);
      var n := FromLE(b[..2]);
      RawWritten(b[2..], n);
    }
  }

  // Manifests

  predicate Printable(t: Text, maximum: nat) {
    0 < |t| <= maximum && forall i :: 0 <= i < |t| ==> 0x20 <= t[i] <= 0x7E
  }

  predicate ValidManifest(m: Manifest) {
    && m.version == 1 && m.decodedLength <= BLOB_BYTE_LIMIT && ValidHash(m.contentHash)
    && Printable(m.mediaType, 64) && Printable(m.source, 128) && Printable(m.license, 64)
  }

  /** The first complaint about a manifest. */
  function ManifestRefusal(m: Manifest): (r: Option<string>)
    ensures r.None? <==> ValidManifest(m)
  {
    if m.version != 1 then Some("UNSUPPORTED_VERSION")
    else if m.decodedLength > BLOB_BYTE_LIMIT then Some("BUDGET_EXCEEDED")
    else if !ValidHash(m.contentHash) || !Printable(m.mediaType, 64) || !Printable(m.source, 128) || !Printable(m.license, 64)
    then Some(BAD_MANIFEST)
    else None
  }

  /** The canonical bytes; an asset is named by their hash. */
  function ManifestBytes(m: Manifest): Bytes
    requires ValidHash(m.contentHash)
  {
    MANIFEST_MAGIC + (LE(m.version, 4) + (Unhex(m.contentHash) + (LE(m.decodedLength, 4) +
    Short(m.mediaType, Short(m.source, Short(m.license, []))))))
  }

  function TakeLabels(b: Bytes): Result<(Text, Text, Text), string> {
    var (mediaType, b1) :- TakeShort(b, 64, BAD_MANIFEST, BAD_MANIFEST);
    var (source, b2) :- TakeShort(b1, 128, BAD_MANIFEST, BAD_MANIFEST);
    var (license, b3) :- TakeShort(b2, 64, BAD_MANIFEST, BAD_MANIFEST);
    if b3 != [] then Err(BAD_MANIFEST) else Ok((mediaType, source, license))
  }

  function TakeManifest(b: Bytes): Result<Manifest, string> {
    var (version, b1) :- OrFail(TakeU32(b), BAD_MANIFEST);
    if version != 1 then Err("UNSUPPORTED_VERSION")
    else
      var (digest, b2) :- OrFail(TakeRaw(b1, 32), BAD_MANIFEST);
      var (length, b3) :- OrFail(TakeU32(b2), BAD_MANIFEST);
      var labels :- TakeLabels(b3);
      Ok(Manifest(version, HexOf(digest), length, labels.0, labels.1, labels.2))
  }

  function ReadManifest(b: Bytes): Result<Manifest, string> {
    if |b| > CANONICAL_LIMIT then Err(BAD_MANIFEST)
    else
      var rest :- OrFail(TakeMagic(b, MANIFEST_MAGIC), BAD_MANIFEST);
      var m :- TakeManifest(rest);
      var refusal := ManifestRefusal(m);
      if refusal.Some? then Err(refusal.value) else Ok(m)
  }

  lemma LabelsRead(m: Manifest)
    requires |m.mediaType| <= 64 && |m.source| <= 128 && |m.license| <= 64
    ensures TakeLabels(Short(m.mediaType, Short(m.source, Short(m.license, [])))) == Ok((m.mediaType, m.source, m.license))
  {
    hide TakeShort, Short;
    ShortReads(m.mediaType, Short(m.source, Short(m.license, [])), 64, BAD_MANIFEST, BAD_MANIFEST);
    ShortReads(m.source, Short(m.license, []), 128, BAD_MANIFEST, BAD_MANIFEST);
    ShortReads(m.license, [], 64, BAD_MANIFEST, BAD_MANIFEST);
  }

  /** A valid manifest is read back from its canonical bytes. */
  lemma ManifestReads(m: Manifest)
    requires ValidManifest(m)
    ensures ReadManifest(ManifestBytes(m)) == Ok(m) && |ManifestBytes(m)| <= CANONICAL_LIMIT
  {
    hide TakeLabels, HexText, Printable;
    HexUnhex(m.contentHash);
    PrintableSize(m);
    LabelsRead(m);
    var labels := Short(m.mediaType, Short(m.source, Short(m.license, [])));
    assert |labels| == 6 + |m.mediaType| + |m.source| + |m.license| <= 262;
    hide Short;
    var b3 := LE(m.decodedLength, 4) + labels;
    var b2 := Unhex(m.contentHash) + b3;
    MagicReads(MANIFEST_MAGIC, LE(m.version, 4) + b2);
    U32Reads(m.version, b2);
    RawReads(Unhex(m.contentHash), b3);
    U32Reads(m.decodedLength, labels);
  }

  lemma PrintableSize(m: Manifest)
    requires ValidManifest(m)
    ensures |m.mediaType| <= 64 && |m.source| <= 128 && |m.license| <= 64
  {
  }

  lemma LabelsWritten(b: Bytes)
    ensures TakeLabels(b).Ok? ==>
      var (mediaType, source, license) := TakeLabels(b).value;
      b == Short(mediaType, Short(source, Short(license, [])))
  {
    hide TakeShort, Short;
    ShortWritten(b, 64, BAD_MANIFEST, BAD_MANIFEST);
    if TakeLabels(b).Ok? {
      var (_, b1) := TakeShort(b, 64, BAD_MANIFEST, BAD_MANIFEST).value;
      ShortWritten(b1, 128, BAD_MANIFEST, BAD_MANIFEST);
      var (_, b2) := TakeShort(b1, 128, BAD_MANIFEST, BAD_MANIFEST).value;
      ShortWritten(b2, 64, BAD_MANIFEST, BAD_MANIFEST);
    }
  }

  /** Only canonical bytes are accepted, so a manifest has one encoding. */
  lemma ManifestWritten(b: Bytes)
    requires ReadManifest(b).Ok?
    ensures ValidManifest(ReadManifest(b).value) && b == ManifestBytes(ReadManifest(b).value)
  {
    hide TakeLabels, Short, Printable;
    var rest := TakeMagic(b, MANIFEST_MAGIC).value;
    MagicWritten(b, MANIFEST_MAGIC);
    U32Written(rest);
    var (_, b1) := TakeU32(rest).value;
    RawWritten(b1, 32);
    var (digest, b2) := TakeRaw(b1, 32).value;
    U32Written(b2);
    var (_, b3) := TakeU32(b2).value;
    LabelsWritten(b3);
    UnhexHex(digest);
  }
}
