/** Asset bundles: content-addressed manifests and blobs as bytes, and reading exactly the sound ones. */
module Bundles {
  import opened Prelude
  import opened Texts
  import opened Readers
  import opened Commands
  import opened Keyed
  import opened Manifests

  const BUNDLE_MAGIC := Ascii("OWASB001")
  const BLOB_PATH := Ascii("blobs/")
  const MANIFEST_LIMIT := 8
  const BLOB_LIMIT := 8
  const DECODED_BYTE_LIMIT := 262144
  const BUNDLE_BYTE_LIMIT := 524288

  const BAD_BUNDLE := "INVALID_BUNDLE"

  datatype Asset = Asset(id: Text, manifest: Manifest)
  datatype Blob = Blob(hash: Text, bytes: Bytes)

  /** A blob as a bundle carries it. */
  datatype Packed = Packed(blob: Blob, codec: byte, encoded: Bytes)

  datatype Content = Content(assets: seq<Asset>, blobs: seq<Blob>)

  const AssetKey: Asset -> Text := (a: Asset) => a.id
  const BlobKey: Blob -> Text := (b: Blob) => b.hash

  function HashText(pl: Platform, b: Bytes): (t: Text)
    ensures ValidHash(t)
  {
    HexOf(pl.sha(b))
  }

  // Run-length decoding

  function Repeat(c: byte, n: nat): (r: Bytes)
    ensures |r| == n
  {
    seq(n, _ => c)
  }

  /** The expansion of (count, value) pairs. */
  function Expansion(e: Bytes): Bytes
    requires |e| % 2 == 0
  {
    if e == [] then [] else Repeat(e[1], e[0]) + Expansion(e[2..])
  }

  /** The first pass: what is left of the announced length, unless a count is zero or too large. */
  function Remaining(e: Bytes, length: nat): Option<nat>
    requires |e| % 2 == 0
  {
    if e == [] then Some(length)
    else if e[0] == 0 || e[0] > length then None
    else Remaining(e[2..], length - e[0])
  }

  function Unpack(codec: byte, encoded: Bytes, length: nat): Result<Bytes, string> {
    if codec == 0 then (if |encoded| != length then Err("SIZE_MISMATCH") else Ok(encoded))
    else if |encoded| % 2 != 0 then Err("DECOMPRESSION_ERROR")
    else
      match Remaining(encoded, length)
      case None => Err("DECOMPRESSION_ERROR")
      case Some(left) => if left != 0 then Err("SIZE_MISMATCH") else Ok(Expansion(encoded))
  }

  predicate Counted(e: Bytes)
    requires |e| % 2 == 0
  {
    forall i :: 0 <= i < |e| && i % 2 == 0 ==> e[i] > 0
  }

  /** The first pass accepts exactly nonzero counts whose expansion has the announced length. */
  lemma {:induction false} RemainingExact(e: Bytes, length: nat)
    requires |e| % 2 == 0
    ensures Remaining(e, length).Some? <==> Counted(e) && |Expansion(e)| <= length
    ensures Remaining(e, length).Some? ==> Remaining(e, length).value == length - |Expansion(e)|
  {
    if e != [] {
      var tail := e[2..];
      assert Counted(e) <==> e[0] > 0 && Counted(tail) by {
        assert forall i :: 0 <= i < |tail| ==> tail[i] == e[i + 2];
        if e[0] > 0 && Counted(tail) {
          forall i | 0 <= i < |e| && i % 2 == 0
            ensures e[i] > 0
          {
            assert i >= 2 ==> tail[i - 2] == e[i];
          }
        }
      }
      if e[0] <= length {
        RemainingExact(tail, length - e[0]);
      }
    }
  }

  /** Run-length decoding never yields anything but the announced number of octets, and accepts no other input. */
  lemma {:induction false} UnpackExact(encoded: Bytes, length: nat, bytes: Bytes)
    ensures Unpack(0, encoded, length) == Ok(bytes) <==> encoded == bytes && |bytes| == length
    ensures Unpack(1, encoded, length) == Ok(bytes) <==>
      |encoded| % 2 == 0 && Counted(encoded) && Expansion(encoded) == bytes && |bytes| == length
  {
    if |encoded| % 2 == 0 {
      RemainingExact(encoded, length);
    }
  }

  // Writing

  function AssetBytes(a: Asset, rest: Bytes): Bytes
    requires ValidHash(a.id) && ValidHash(a.manifest.contentHash)
  {
    var m := ManifestBytes(a.manifest);
    Unhex(a.id) + (LE(|m|, 4) + (m + rest))
  }

  predicate Printables(assets: seq<Asset>) {
    forall i :: 0 <= i < |assets| ==> ValidHash(assets[i].id) && ValidManifest(assets[i].manifest)
  }

  function AssetList(assets: seq<Asset>, rest: Bytes): Bytes
    requires Printables(assets)
  {
    if assets == [] then rest else AssetBytes(assets[0], AssetList(assets[1..], rest))
  }

  function PackedBytes(p: Packed, rest: Bytes): Bytes {
    Short(BLOB_PATH + p.blob.hash, [p.codec] + (LE(|p.blob.bytes|, 4) + (LE(|p.encoded|, 4) + (p.encoded + rest))))
  }

  function PackedList(ps: seq<Packed>, rest: Bytes): Bytes {
    if ps == [] then rest else PackedBytes(ps[0], PackedList(ps[1..], rest))
  }

  function BundleBytes(assets: seq<Asset>, ps: seq<Packed>): Bytes
    requires Printables(assets)
  {
    BUNDLE_MAGIC + (LE(1, 4) + (LE(|assets|, 4) + (LE(|ps|, 4) + AssetList(assets, PackedList(ps, [])))))
  }

  // Reading

  /** The asset is named by the hash of its canonical manifest. */
  predicate AssetSound(pl: Platform, a: Asset) {
    ValidHash(a.id) && ValidManifest(a.manifest) && a.id == HashText(pl, ManifestBytes(a.manifest))
  }

  predicate BlobSound(pl: Platform, b: Blob) {
    |b.bytes| <= BLOB_BYTE_LIMIT && b.hash == HashText(pl, b.bytes)
  }

  function TakeAsset(pl: Platform, b: Bytes, seen: seq<Asset>): Result<(Asset, Bytes), string> {
    var (digest, b1) :- OrFail(TakeRaw(b, 32), BAD_BUNDLE);
    var (length, b2) :- OrFail(TakeU32(b1), BAD_BUNDLE);
    if length > CANONICAL_LIMIT then Err(BAD_MANIFEST)
    else
      var (raw, rest) :- OrFail(TakeRaw(b2, length), BAD_BUNDLE);
      var m :- ReadManifest(raw);
      ManifestWritten(raw);
      if HashText(pl, ManifestBytes(m)) != HexOf(digest) then Err("HASH_MISMATCH")
      else if FindBy(seen, AssetKey, HexOf(digest)) < |seen| then Err("DUPLICATE_ENTRY")
      else Ok((Asset(HexOf(digest), m), rest))
  }

  /** The next `n` assets after those already seen. */
  function TakeAssets(pl: Platform, b: Bytes, n: nat, seen: seq<Asset>): Result<(seq<Asset>, Bytes), string>
    decreases n
  {
    if n == 0 then Ok((seen, b))
    else
      var (a, rest) :- TakeAsset(pl, b, seen);
      TakeAssets(pl, rest, n - 1, seen + [a])
  }

  function PathRefusal(path: Text): (r: Option<string>)
    ensures r.None? <==> |path| == 70 && BLOB_PATH <= path && HexText(path[6..])
  {
    if |path| != 70 || path[..6] != BLOB_PATH || !ValidHash(path[6..]) then Some("INVALID_PATH") else None
  }

  function LengthRefusal(decoded: nat, encoded: nat, total: nat): Option<string> {
    if decoded > BLOB_BYTE_LIMIT || decoded > DECODED_BYTE_LIMIT - total || encoded > BLOB_BYTE_LIMIT * 2
    then Some("BUDGET_EXCEEDED") else None
  }

  /** The codec and the lengths of a blob, and its encoded octets. */
  function TakeCoded(b: Bytes, total: nat): Result<(byte, nat, Bytes, Bytes), string> {
    var (codec, b1) :- OrFail(TakeRaw(b, 1), BAD_BUNDLE);
    var (decoded, b2) :- OrFail(TakeU32(b1), BAD_BUNDLE);
    var (length, b3) :- OrFail(TakeU32(b2), BAD_BUNDLE);
    if LengthRefusal(decoded, length, total).Some? then Err(LengthRefusal(decoded, length, total).value)
    else if codec[0] > 1 then Err(BAD_BUNDLE)
    else
      var (encoded, rest) :- OrFail(TakeRaw(b3, length), BAD_BUNDLE);
      Ok((codec[0], decoded, encoded, rest))
  }

  function TakePacked(pl: Platform, b: Bytes, seen: seq<Blob>, total: nat): Result<(Packed, Bytes), string> {
    var (path, b1) :- TakeShort(b, 70, BAD_BUNDLE, "INVALID_PATH");
    if PathRefusal(path).Some? then Err("INVALID_PATH")
    else if FindBy(seen, BlobKey, path[6..]) < |seen| then Err("DUPLICATE_ENTRY")
    else
      var (codec, length, encoded, rest) :- TakeCoded(b1, total);
      var bytes :- Unpack(codec, encoded, length);
      if HashText(pl, bytes) != path[6..] then Err("HASH_MISMATCH")
      else Ok((Packed(Blob(path[6..], bytes), codec, encoded), rest))
  }

  function Blobs(ps: seq<Packed>): (r: seq<Blob>)
    ensures |r| == |ps| && forall i :: 0 <= i < |r| ==> r[i] == ps[i].blob
  {
    seq(|ps|, i requires 0 <= i < |ps| => ps[i].blob)
  }

  const BlobSize: Blob -> nat := (b: Blob) => |b.bytes|

  function Total(blobs: seq<Blob>): nat {
    SumBy(blobs, BlobSize)
  }

  function TakePackeds(pl: Platform, b: Bytes, n: nat, seen: seq<Packed>): Result<(seq<Packed>, Bytes), string>
    decreases n
  {
    if n == 0 then Ok((seen, b))
    else
      var (p, rest) :- TakePacked(pl, b, Blobs(seen), Total(Blobs(seen)));
      TakePackeds(pl, rest, n - 1, seen + [p])
  }

  /** The blob an asset refers to is there with the announced length. */
  function ReferenceRefusal(blobs: seq<Blob>, a: Asset): Option<string> {
    var at := FindBy(blobs, BlobKey, a.manifest.contentHash);
    if at == |blobs| then Some("MISSING_BLOB")
    else if |blobs[at].bytes| != a.manifest.decodedLength then Some("SIZE_MISMATCH")
    else None
  }

  function ReferencesRefusal(blobs: seq<Blob>, assets: seq<Asset>, n: nat): Option<string>
    requires n <= |assets|
  {
    if n == 0 then None
    else
      var before := ReferencesRefusal(blobs, assets, n - 1);
      if before.Some? then before else ReferenceRefusal(blobs, assets[n - 1])
  }

  function Referenced(assets: seq<Asset>): set<Text> {
    set i | 0 <= i < |assets| :: assets[i].manifest.contentHash
  }

  function CheckContent(assets: seq<Asset>, blobs: seq<Blob>): Result<Content, string> {
    var refusal := ReferencesRefusal(blobs, assets, |assets|);
    if refusal.Some? then Err(refusal.value)
    else if |Referenced(assets)| != |blobs| then Err("EXTRA_BLOB")
    else Ok(Content(SortBy(assets, AssetKey), SortBy(blobs, BlobKey)))
  }

  /** The entries of a bundle in their order, before the references are checked. */
  function TakeEntries(pl: Platform, b: Bytes): Result<(seq<Asset>, seq<Packed>), string> {
    var b1 :- OrFail(TakeMagic(b, BUNDLE_MAGIC), BAD_BUNDLE);
    var (version, b2) :- OrFail(TakeU32(b1), BAD_BUNDLE);
    if version != 1 then Err("UNSUPPORTED_VERSION")
    else
      var (assetCount, b3) :- OrFail(TakeU32(b2), BAD_BUNDLE);
      var (blobCount, b4) :- OrFail(TakeU32(b3), BAD_BUNDLE);
      if assetCount > MANIFEST_LIMIT || blobCount > BLOB_LIMIT then Err("BUDGET_EXCEEDED")
      else
        TakeLists(pl, b4, assetCount, blobCount)
  }

  function TakeLists(pl: Platform, b: Bytes, assetCount: nat, blobCount: nat): Result<(seq<Asset>, seq<Packed>), string> {
    var (assets, b1) :- TakeAssets(pl, b, assetCount, []);
    var (ps, rest) :- TakePackeds(pl, b1, blobCount, []);
    if rest != [] then Err(BAD_BUNDLE) else Ok((assets, ps))
  }

  function Decoded(pl: Platform, b: Bytes): Result<Content, string> {
    if |b| > BUNDLE_BYTE_LIMIT then Err("BUDGET_EXCEEDED")
    else
      var (assets, ps) :- TakeEntries(pl, b);
      CheckContent(assets, Blobs(ps))
  }

  // Which lists a bundle may carry

  /** The entry continues those already there. */
  predicate AssetFits(pl: Platform, seen: seq<Asset>, a: Asset) {
    AssetSound(pl, a) && forall i :: 0 <= i < |seen| ==> seen[i].id != a.id
  }

  predicate PackedFits(pl: Platform, seen: seq<Blob>, p: Packed) {
    && BlobSound(pl, p.blob) && (forall i :: 0 <= i < |seen| ==> seen[i].hash != p.blob.hash)
    && LengthRefusal(|p.blob.bytes|, |p.encoded|, Total(seen)).None? && p.codec <= 1
    && Unpack(p.codec, p.encoded, |p.blob.bytes|) == Ok(p.blob.bytes)
  }

  predicate AssetsFit(pl: Platform, assets: seq<Asset>, m: nat)
    requires m <= |assets|
  {
    forall k :: m <= k < |assets| ==> AssetFits(pl, assets[..k], assets[k])
  }

  predicate PackedsFit(pl: Platform, ps: seq<Packed>, m: nat)
    requires m <= |ps|
  {
    forall k :: m <= k < |ps| ==> PackedFits(pl, Blobs(ps[..k]), ps[k])
  }

  lemma AssetReads(pl: Platform, seen: seq<Asset>, a: Asset, rest: Bytes)
    requires AssetFits(pl, seen, a)
    ensures TakeAsset(pl, AssetBytes(a, rest), seen) == Ok((a, rest))
  {
    hide ReadManifest, ManifestBytes, Printable, FindBy;
    ManifestReads(a.manifest);
    HexUnhex(a.id);
    var m := ManifestBytes(a.manifest);
    RawReads(Unhex(a.id), LE(|m|, 4) + (m + rest));
    U32Reads(|m|, m + rest);
    RawReads(m, rest);
    assert FindBy(seen, AssetKey, a.id) == |seen|;
  }

  lemma AssetWritten(pl: Platform, b: Bytes, seen: seq<Asset>)
    ensures TakeAsset(pl, b, seen).Ok? ==>
      var (a, rest) := TakeAsset(pl, b, seen).value;
      AssetFits(pl, seen, a) && b == AssetBytes(a, rest)
  {
    hide ReadManifest, ManifestBytes, ValidManifest, FindBy;
    if TakeAsset(pl, b, seen).Ok? {
      RawWritten(b, 32);
      var (digest, b1) := TakeRaw(b, 32).value;
      U32Written(b1);
      var (length, b2) := TakeU32(b1).value;
      RawWritten(b2, length);
      ManifestWritten(TakeRaw(b2, length).value.0);
      UnhexHex(digest);
      assert FindBy(seen, AssetKey, HexOf(digest)) == |seen|;
      assert forall i :: 0 <= i < |seen| ==> AssetKey(seen[i]) != HexOf(digest);
    }
  }

  lemma CodedReads(p: Packed, total: nat, rest: Bytes)
    requires LengthRefusal(|p.blob.bytes|, |p.encoded|, total).None? && p.codec <= 1
    ensures
      TakeCoded([p.codec] + (LE(|p.blob.bytes|, 4) + (LE(|p.encoded|, 4) + (p.encoded + rest))), total)
      == Ok((p.codec, |p.blob.bytes|, p.encoded, rest))
  {
    RawReads([p.codec], LE(|p.blob.bytes|, 4) + (LE(|p.encoded|, 4) + (p.encoded + rest)));
    U32Reads(|p.blob.bytes|, LE(|p.encoded|, 4) + (p.encoded + rest));
    U32Reads(|p.encoded|, p.encoded + rest);
    RawReads(p.encoded, rest);
  }

  lemma CodedWritten(b: Bytes, total: nat)
    ensures TakeCoded(b, total).Ok? ==>
      var (codec, length, encoded, rest) := TakeCoded(b, total).value;
      && b == [codec] + (LE(length, 4) + (LE(|encoded|, 4) + (encoded + rest)))
      && LengthRefusal(length, |encoded|, total).None? && codec <= 1
  {
    if TakeCoded(b, total).Ok? {
      RawWritten(b, 1);
      var (codec, b1) := TakeRaw(b, 1).value;
      assert codec == [codec[0]];
      U32Written(b1);
      var (_, b2) := TakeU32(b1).value;
      U32Written(b2);
      var (length, b3) := TakeU32(b2).value;
      RawWritten(b3, length);
    }
  }

  lemma PackedReads(pl: Platform, seen: seq<Blob>, p: Packed, rest: Bytes)
    requires PackedFits(pl, seen, p)
    ensures TakePacked(pl, PackedBytes(p, rest), seen, Total(seen)) == Ok((p, rest))
  {
    hide TakeShort, Short, TakeCoded, Unpack, FindBy, Total, LengthRefusal;
    var path, coded := BLOB_PATH + p.blob.hash, [p.codec] + (LE(|p.blob.bytes|, 4) + (LE(|p.encoded|, 4) + (p.encoded + rest)));
    ShortReads(path, coded, 70, BAD_BUNDLE, "INVALID_PATH");
    assert path[..6] == BLOB_PATH && path[6..] == p.blob.hash;
    CodedReads(p, Total(seen), rest);
    assert FindBy(seen, BlobKey, p.blob.hash) == |seen|;
  }

  lemma PackedWritten(pl: Platform, b: Bytes, seen: seq<Blob>)
    ensures TakePacked(pl, b, seen, Total(seen)).Ok? ==>
      var (p, rest) := TakePacked(pl, b, seen, Total(seen)).value;
      PackedFits(pl, seen, p) && b == PackedBytes(p, rest)
  {
    hide TakeShort, Short, TakeCoded, Unpack, FindBy, Total;
    if TakePacked(pl, b, seen, Total(seen)).Ok? {
      ShortWritten(b, 70, BAD_BUNDLE, "INVALID_PATH");
      var (path, b1) := TakeShort(b, 70, BAD_BUNDLE, "INVALID_PATH").value;
      assert path == BLOB_PATH + path[6..];
      CodedWritten(b1, Total(seen));
      var (codec, length, encoded, rest) := TakeCoded(b1, Total(seen)).value;
      UnpackLength(codec, encoded, length);
      assert FindBy(seen, BlobKey, path[6..]) == |seen|;
      assert forall i :: 0 <= i < |seen| ==> BlobKey(seen[i]) != path[6..];
    }
  }

  lemma UnpackLength(codec: byte, encoded: Bytes, length: nat)
    ensures Unpack(codec, encoded, length).Ok? ==> |Unpack(codec, encoded, length).value| == length
  {
    if Unpack(codec, encoded, length).Ok? && codec != 0 {
      RemainingExact(encoded, length);
    }
  }

  /** Lists that fit are read back in their order, whatever follows. */
  lemma {:induction false} AssetsRead(pl: Platform, assets: seq<Asset>, m: nat, rest: Bytes)
    requires m <= |assets| && Printables(assets[m..]) && AssetsFit(pl, assets, m)
    ensures TakeAssets(pl, AssetList(assets[m..], rest), |assets| - m, assets[..m]) == Ok((assets, rest))
    decreases |assets| - m
  {
    hide TakeAsset, AssetBytes, AssetFits, ValidManifest, ValidHash;
    if m < |assets| {
      var more := assets[m..];
      assert more[0] == assets[m] && more[1..] == assets[m + 1..];
      assert AssetFits(pl, assets[..m], assets[m]);
      AssetReads(pl, assets[..m], assets[m], AssetList(more[1..], rest));
      assert assets[..m] + [assets[m]] == assets[..m + 1];
      AssetsRead(pl, assets, m + 1, rest);
    } else {
      assert assets[..m] == assets && assets[m..] == [];
    }
  }

  lemma {:induction false} PackedsRead(pl: Platform, ps: seq<Packed>, m: nat, rest: Bytes)
    requires m <= |ps| && PackedsFit(pl, ps, m)
    ensures TakePackeds(pl, PackedList(ps[m..], rest), |ps| - m, ps[..m]) == Ok((ps, rest))
    decreases |ps| - m
  {
    hide TakePacked, PackedBytes, PackedFits, Total;
    if m < |ps| {
      var more := ps[m..];
      assert more[0] == ps[m] && more[1..] == ps[m + 1..];
      assert PackedFits(pl, Blobs(ps[..m]), ps[m]);
      PackedReads(pl, Blobs(ps[..m]), ps[m], PackedList(more[1..], rest));
      assert ps[..m] + [ps[m]] == ps[..m + 1];
      PackedsRead(pl, ps, m + 1, rest);
    } else {
      assert ps[..m] == ps && ps[m..] == [];
    }
  }

  lemma {:induction false} AssetsWritten(pl: Platform, b: Bytes, n: nat, seen: seq<Asset>)
    requires TakeAssets(pl, b, n, seen).Ok?
    ensures
      var (assets, rest) := TakeAssets(pl, b, n, seen).value;
      && |assets| == |seen| + n && assets[..|seen|] == seen && AssetsFit(pl, assets, |seen|)
      && Printables(assets[|seen|..]) && b == AssetList(assets[|seen|..], rest)
    decreases n
  {
    hide TakeAsset, AssetBytes, AssetFits, ValidManifest, ValidHash;
    var (assets, rest) := TakeAssets(pl, b, n, seen).value;
    if n > 0 {
      AssetWritten(pl, b, seen);
      var (a, b1) := TakeAsset(pl, b, seen).value;
      AssetsWritten(pl, b1, n - 1, seen + [a]);
      assert assets[..|seen|] == assets[..|seen| + 1][..|seen|] == seen;
      assert assets[|seen|] == assets[..|seen| + 1][|seen|] == a;
      FitsPrintable(pl, seen, a);
      var more := assets[|seen|..];
      assert more[0] == a && more[1..] == assets[|seen| + 1..];
      PrintablesMore(more);
    }
  }

  lemma FitsPrintable(pl: Platform, seen: seq<Asset>, a: Asset)
    requires AssetFits(pl, seen, a)
    ensures ValidHash(a.id) && ValidManifest(a.manifest)
  {
  }

  lemma PrintablesMore(more: seq<Asset>)
    requires more != [] && ValidHash(more[0].id) && ValidManifest(more[0].manifest) && Printables(more[1..])
    ensures Printables(more)
  {
    hide ValidHash, ValidManifest;
    forall i | 0 <= i < |more|
      ensures ValidHash(more[i].id) && ValidManifest(more[i].manifest)
    {
      assert i > 0 ==> more[i] == more[1..][i - 1];
    }
  }

  lemma {:induction false} PackedsWritten(pl: Platform, b: Bytes, n: nat, seen: seq<Packed>)
    requires TakePackeds(pl, b, n, seen).Ok?
    ensures
      var (ps, rest) := TakePackeds(pl, b, n, seen).value;
      && |ps| == |seen| + n && ps[..|seen|] == seen && PackedsFit(pl, ps, |seen|) && b == PackedList(ps[|seen|..], rest)
    decreases n
  {
    hide TakePacked, PackedBytes, PackedFits, Total;
    var (ps, rest) := TakePackeds(pl, b, n, seen).value;
    if n > 0 {
      PackedWritten(pl, b, Blobs(seen));
      var (p, b1) := TakePacked(pl, b, Blobs(seen), Total(Blobs(seen))).value;
      PackedsWritten(pl, b1, n - 1, seen + [p]);
      assert ps[..|seen|] == ps[..|seen| + 1][..|seen|] == seen;
      assert ps[|seen|] == ps[..|seen| + 1][|seen|] == p;
      var more := ps[|seen|..];
      assert more[0] == p && more[1..] == ps[|seen| + 1..];
    }
  }

  predicate EntriesFit(pl: Platform, assets: seq<Asset>, ps: seq<Packed>) {
    && |assets| <= MANIFEST_LIMIT && |ps| <= BLOB_LIMIT && Printables(assets)
    && AssetsFit(pl, assets, 0) && PackedsFit(pl, ps, 0)
  }

  /** Entries that fit are read from their bytes; any octet after them is an error. */
  lemma EntriesRead(pl: Platform, assets: seq<Asset>, ps: seq<Packed>, rest: Bytes)
    requires EntriesFit(pl, assets, ps)
    ensures TakeEntries(pl, BundleBytes(assets, ps) + rest) == if rest == [] then Ok((assets, ps)) else Err(BAD_BUNDLE)
  {
    hide AssetsFit, PackedsFit, Printables, TakeAssets, TakePackeds;
    var b6 := PackedList(ps, rest);
    var b5 := AssetList(assets, b6);
    TailMoves(assets, ps, rest);
    MagicReads(BUNDLE_MAGIC, LE(1, 4) + (LE(|assets|, 4) + (LE(|ps|, 4) + b5)));
    U32Reads(1, LE(|assets|, 4) + (LE(|ps|, 4) + b5));
    U32Reads(|assets|, LE(|ps|, 4) + b5);
    U32Reads(|ps|, b5);
    assert assets[0..] == assets && assets[..0] == [] && ps[0..] == ps && ps[..0] == [];
    AssetsRead(pl, assets, 0, b6);
    PackedsRead(pl, ps, 0, rest);
  }

  lemma {:induction false} PackedMoves(ps: seq<Packed>, rest: Bytes)
    ensures PackedList(ps, []) + rest == PackedList(ps, rest)
  {
    if ps != [] {
      PackedMoves(ps[1..], rest);
      var p, tail := ps[0], PackedList(ps[1..], []);
      Flat2(p.encoded, tail, rest);
      RightNested(LE(|BLOB_PATH + p.blob.hash|, 2), BLOB_PATH + p.blob.hash, [p.codec], LE(|p.blob.bytes|, 4),
                  LE(|p.encoded|, 4), p.encoded + tail, rest);
    }
  }

  /** Appending at the end of a right-nested concatenation. */
  lemma RightNested(a: Bytes, b: Bytes, c: Bytes, d: Bytes, e: Bytes, f: Bytes, x: Bytes)
    ensures (a + (b + (c + (d + (e + f))))) + x == a + (b + (c + (d + (e + (f + x)))))
  {
    Flat2(a, b + (c + (d + (e + f))), x);
    Flat2(b, c + (d + (e + f)), x);
    Flat2(c, d + (e + f), x);
    Flat2(d, e + f, x);
    Flat2(e, f, x);
  }

  lemma {:induction false} AssetMoves(assets: seq<Asset>, tail: Bytes, rest: Bytes)
    requires Printables(assets)
    ensures AssetList(assets, tail) + rest == AssetList(assets, tail + rest)
  {
    hide ManifestBytes;
    if assets != [] {
      AssetMoves(assets[1..], tail, rest);
      var m, more := ManifestBytes(assets[0].manifest), AssetList(assets[1..], tail);
      Flat2(Unhex(assets[0].id), LE(|m|, 4) + (m + more), rest);
      Flat2(LE(|m|, 4), m + more, rest);
      Flat2(m, more, rest);
    }
  }

  lemma {:induction false} TailMoves(assets: seq<Asset>, ps: seq<Packed>, rest: Bytes)
    requires Printables(assets)
    ensures
      BundleBytes(assets, ps) + rest
      == BUNDLE_MAGIC + (LE(1, 4) + (LE(|assets|, 4) + (LE(|ps|, 4) + AssetList(assets, PackedList(ps, rest)))))
  {
    hide AssetList, PackedList;
    PackedMoves(ps, rest);
    AssetMoves(assets, PackedList(ps, []), rest);
    var list := AssetList(assets, PackedList(ps, []));
    Flat2(BUNDLE_MAGIC, LE(1, 4) + (LE(|assets|, 4) + (LE(|ps|, 4) + list)), rest);
    Flat2(LE(1, 4), LE(|assets|, 4) + (LE(|ps|, 4) + list), rest);
    Flat2(LE(|assets|, 4), LE(|ps|, 4) + list, rest);
    Flat2(LE(|ps|, 4), list, rest);
  }

  /** Whatever is read is the bytes of exactly the entries found. */
  lemma EntriesWritten(pl: Platform, b: Bytes)
    requires TakeEntries(pl, b).Ok?
    ensures
      var (assets, ps) := TakeEntries(pl, b).value;
      EntriesFit(pl, assets, ps) && b == BundleBytes(assets, ps)
  {
    hide AssetsFit, PackedsFit, Printables, TakeAssets, TakePackeds;
    MagicWritten(b, BUNDLE_MAGIC);
    var b1 := TakeMagic(b, BUNDLE_MAGIC).value;
    U32Written(b1);
    var (_, b2) := TakeU32(b1).value;
    U32Written(b2);
    var (assetCount, b3) := TakeU32(b2).value;
    U32Written(b3);
    var (blobCount, b4) := TakeU32(b3).value;
    AssetsWritten(pl, b4, assetCount, []);
    var (assets, b5) := TakeAssets(pl, b4, assetCount, []).value;
    PackedsWritten(pl, b5, blobCount, []);
    var (ps, _) := TakePackeds(pl, b5, blobCount, []).value;
    assert assets[0..] == assets && ps[0..] == ps;
  }

  /** A bundle is accepted exactly when it is the bytes of entries that fit, whose references are complete. */
  lemma DecodedExact(pl: Platform, b: Bytes, content: Content)
    ensures Decoded(pl, b) == Ok(content) <==>
      && |b| <= BUNDLE_BYTE_LIMIT
      && exists assets, ps :: Bundled(pl, b, assets, ps) && CheckContent(assets, Blobs(ps)) == Ok(content)
  {
    hide EntriesFit, BundleBytes, TakeEntries, CheckContent, Printables;
    if Decoded(pl, b).Ok? {
      EntriesWritten(pl, b);
      var (assets, ps) := TakeEntries(pl, b).value;
      FitPrintables(pl, assets, ps);
      assert Bundled(pl, b, assets, ps);
    }
    forall assets, ps | Bundled(pl, b, assets, ps)
      ensures TakeEntries(pl, b) == Ok((assets, ps))
    {
      FitPrintables(pl, assets, ps);
      EntriesRead(pl, assets, ps, []);
      assert BundleBytes(assets, ps) + [] == BundleBytes(assets, ps);
    }
  }

  predicate Bundled(pl: Platform, b: Bytes, assets: seq<Asset>, ps: seq<Packed>) {
    EntriesFit(pl, assets, ps) && b == BundleBytes(assets, ps)
  }

  lemma FitPrintables(pl: Platform, assets: seq<Asset>, ps: seq<Packed>)
    requires EntriesFit(pl, assets, ps)
    ensures Printables(assets)
  {
  }

  /** No strict extension of an accepted bundle is accepted, and no strict prefix. */
  lemma PrefixFree(pl: Platform, b: Bytes, x: Bytes)
    requires x != []
    ensures !(Decoded(pl, b).Ok? && Decoded(pl, b + x).Ok?)
  {
    hide EntriesFit, BundleBytes, TakeEntries, CheckContent;
    if Decoded(pl, b).Ok? && Decoded(pl, b + x).Ok? {
      EntriesWritten(pl, b);
      var (assets, ps) := TakeEntries(pl, b).value;
      EntriesRead(pl, assets, ps, x);
      assert false;
    }
  }
}
