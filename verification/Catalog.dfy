/** The catalog as an object: decoding bundles, executing commands on a staged copy, exporting and inspecting. */
module Catalog {
  import opened Prelude
  import opened Texts
  import opened Readers
  import opened Commands
  import opened Keyed
  import opened Manifests
  import opened Bundles
  import opened Reorder
  import opened Catalogs
  import opened Retention

  method ReadShort(r: Reader, maximum: nat, code: string, limitCode: string) returns (v: Result<Text, string>)
    requires r.Valid()
    modifies r
    ensures r.Valid()
    ensures match TakeShort(old(r.Rest()), maximum, code, limitCode)
      case Ok((t, rest)) => v == Ok(t) && r.Rest() == rest
      case Err(e) => v == Err(e)
  {
    var raw := r.Raw(2);
    if raw.None? {
      return Err(code);
    }
    var n := FromLE(raw.value);
    if n > maximum {
      return Err(limitCode);
    }
    var t := r.Raw(n);
    v := OrFail(t, code);
  }

  method ReadLabels(r: Reader) returns (v: Result<(Text, Text, Text), string>)
    requires r.Valid()
    modifies r
    ensures v == TakeLabels(old(r.Rest()))
  {
    hide TakeShort;
    var mediaType :- ReadShort(r, 64, BAD_MANIFEST, BAD_MANIFEST);
    var source :- ReadShort(r, 128, BAD_MANIFEST, BAD_MANIFEST);
    var license :- ReadShort(r, 64, BAD_MANIFEST, BAD_MANIFEST);
    assert r.at == |r.bytes| <==> r.Rest() == [];
    if r.at != |r.bytes| {
      return Err(BAD_MANIFEST);
    }
    v := Ok((mediaType, source, license));
  }

  method DecodeManifest(bytes: Bytes) returns (v: Result<Manifest, string>)
    ensures v == ReadManifest(bytes)
  {
    hide TakeLabels, TakeU32, TakeRaw, TakeMagic, HexOf, Printable;
    if |bytes| > CANONICAL_LIMIT {
      return Err(BAD_MANIFEST);
    }
    var r := new Reader(bytes);
    var magic := r.Magic(MANIFEST_MAGIC);
    if magic.None? {
      return Err(BAD_MANIFEST);
    }
    var version := r.U32();
    if version.None? {
      return Err(BAD_MANIFEST);
    }
    if version.value != 1 {
      return Err("UNSUPPORTED_VERSION");
    }
    var digest := r.Raw(32);
    if digest.None? {
      return Err(BAD_MANIFEST);
    }
    var length := r.U32();
    if length.None? {
      return Err(BAD_MANIFEST);
    }
    var labels :- ReadLabels(r);
    var m := Manifest(version.value, HexOf(digest.value), length.value, labels.0, labels.1, labels.2);
    var refusal := ManifestRefusal(m);
    v := if refusal.Some? then Err(refusal.value) else Ok(m);
  }

  method ReadAsset(pl: Platform, r: Reader, seen: seq<Asset>) returns (v: Result<Asset, string>)
    requires r.Valid()
    modifies r
    ensures r.Valid()
    ensures match TakeAsset(pl, old(r.Rest()), seen)
      case Ok((a, rest)) => v == Ok(a) && r.Rest() == rest
      case Err(e) => v == Err(e)
  {
    hide TakeRaw, TakeU32, ReadManifest, HexOf, FindBy, ManifestBytes;
    var digest := r.Raw(32);
    if digest.None? {
      return Err(BAD_BUNDLE);
    }
    var length := r.U32();
    if length.None? {
      return Err(BAD_BUNDLE);
    }
    if length.value > CANONICAL_LIMIT {
      return Err(BAD_MANIFEST);
    }
    var raw := r.Raw(length.value);
    if raw.None? {
      return Err(BAD_BUNDLE);
    }
    var m :- DecodeManifest(raw.value);
    ManifestWritten(raw.value);
    if HashText(pl, ManifestBytes(m)) != HexOf(digest.value) {
      return Err("HASH_MISMATCH");
    }
    if FindBy(seen, AssetKey, HexOf(digest.value)) < |seen| {
      return Err("DUPLICATE_ENTRY");
    }
    v := Ok(Asset(HexOf(digest.value), m));
  }

  /** Two passes over the pairs: the first checks the counts, the second appends the runs. */
  method Decompress(encoded: Bytes, length: nat) returns (v: Result<Bytes, string>)
    ensures v == Unpack(1, encoded, length)
  {
    if |encoded| % 2 != 0 {
      return Err("DECOMPRESSION_ERROR");
    }
    var expanded, at := 0, 0;
    while at < |encoded|
      invariant at <= |encoded| && at % 2 == 0 && expanded <= length
      invariant Remaining(encoded, length) == Remaining(encoded[at..], length - expanded)
    {
      var count := encoded[at];
      assert encoded[at..][2..] == encoded[at + 2..] && encoded[at..][0] == count;
      if count == 0 || count > length - expanded {
        return Err("DECOMPRESSION_ERROR");
      }
      expanded, at := expanded + count, at + 2;
    }
    assert encoded[at..] == [];
    if expanded != length {
      return Err("SIZE_MISMATCH");
    }
    var bytes: Bytes := [];
    at := 0;
    while at < |encoded|
      invariant at <= |encoded| && at % 2 == 0
      invariant Expansion(encoded) == bytes + Expansion(encoded[at..])
    {
      assert encoded[at..][2..] == encoded[at + 2..];
      Flat2(bytes, Repeat(encoded[at + 1], encoded[at]), Expansion(encoded[at + 2..]));
      bytes := bytes + Repeat(encoded[at + 1], encoded[at]);
      at := at + 2;
    }
    assert encoded[at..] == [] && bytes + [] == bytes;
    v := Ok(bytes);
  }

  method ReadCoded(r: Reader, total: nat) returns (v: Result<(byte, nat, Bytes), string>)
    requires r.Valid()
    modifies r
    ensures r.Valid()
    ensures match TakeCoded(old(r.Rest()), total)
      case Ok((codec, length, encoded, rest)) => v == Ok((codec, length, encoded)) && r.Rest() == rest
      case Err(e) => v == Err(e)
  {
    hide TakeU32;
    var codec := r.Raw(1);
    if codec.None? {
      return Err(BAD_BUNDLE);
    }
    var decoded := r.U32();
    if decoded.None? {
      return Err(BAD_BUNDLE);
    }
    var length := r.U32();
    if length.None? {
      return Err(BAD_BUNDLE);
    }
    if decoded.value > BLOB_BYTE_LIMIT || decoded.value > DECODED_BYTE_LIMIT - total || length.value > BLOB_BYTE_LIMIT * 2 {
      return Err("BUDGET_EXCEEDED");
    }
    if codec.value[0] > 1 {
      return Err(BAD_BUNDLE);
    }
    var encoded := r.Raw(length.value);
    if encoded.None? {
      return Err(BAD_BUNDLE);
    }
    v := Ok((codec.value[0], decoded.value, encoded.value));
  }

  method ReadPacked(pl: Platform, r: Reader, seen: seq<Blob>, total: nat) returns (v: Result<Packed, string>)
    requires r.Valid()
    modifies r
    ensures r.Valid()
    ensures match TakePacked(pl, old(r.Rest()), seen, total)
      case Ok((p, rest)) => v == Ok(p) && r.Rest() == rest
      case Err(e) => v == Err(e)
  {
    hide TakeShort, TakeCoded, FindBy, Unpack, HashText;
    var path :- ReadShort(r, 70, BAD_BUNDLE, "INVALID_PATH");
    if PathRefusal(path).Some? {
      return Err("INVALID_PATH");
    }
    if FindBy(seen, BlobKey, path[6..]) < |seen| {
      return Err("DUPLICATE_ENTRY");
    }
    var coded :- ReadCoded(r, total);
    var (codec, length, encoded) := coded;
    var bytes :- ReadBytes(codec, encoded, length);
    if HashText(pl, bytes) != path[6..] {
      return Err("HASH_MISMATCH");
    }
    v := Ok(Packed(Blob(path[6..], bytes), codec, encoded));
  }

  method ReadBytes(codec: byte, encoded: Bytes, length: nat) returns (v: Result<Bytes, string>)
    ensures v == Unpack(codec, encoded, length)
  {
    if codec == 0 {
      return if |encoded| != length then Err("SIZE_MISMATCH") else Ok(encoded);
    }
    v := Decompress(encoded, length);
  }

  method ReadAssets(pl: Platform, r: Reader, count: nat) returns (v: Result<seq<Asset>, string>)
    requires r.Valid()
    modifies r
    ensures r.Valid()
    ensures match TakeAssets(pl, old(r.Rest()), count, [])
      case Ok((assets, rest)) => v == Ok(assets) && r.Rest() == rest
      case Err(e) => v == Err(e)
  {
    hide TakeAsset;
    ghost var start := r.Rest();
    var assets, i := [], 0;
    while i < count
      invariant i <= count && r.Valid()
      invariant TakeAssets(pl, start, count, []) == TakeAssets(pl, r.Rest(), count - i, assets)
    {
      var a :- ReadAsset(pl, r, assets);
      assets, i := assets + [a], i + 1;
    }
    v := Ok(assets);
  }

  method ReadPackeds(pl: Platform, r: Reader, count: nat) returns (v: Result<seq<Packed>, string>)
    requires r.Valid()
    modifies r
    ensures r.Valid()
    ensures match TakePackeds(pl, old(r.Rest()), count, [])
      case Ok((ps, rest)) => v == Ok(ps) && r.Rest() == rest
      case Err(e) => v == Err(e)
  {
    hide TakePacked, SumBy;
    ghost var start := r.Rest();
    var ps: seq<Packed>, blobs: seq<Blob>, total, i := [], [], 0, 0;
    NoBlobs();
    while i < count
      invariant i <= count && r.Valid() && blobs == Blobs(ps) && total == Total(blobs)
      invariant TakePackeds(pl, start, count, []) == TakePackeds(pl, r.Rest(), count - i, ps)
    {
      var p :- ReadPacked(pl, r, blobs, total);
      assert Blobs(ps + [p]) == blobs + [p.blob];
      SumAppend(blobs, p.blob, BlobSize);
      ps, blobs, total, i := ps + [p], blobs + [p.blob], total + |p.blob.bytes|, i + 1;
    }
    v := Ok(ps);
  }

  lemma NoBlobs()
    ensures Total([]) == 0 && Blobs([]) == []
  {
  }

  /** Every asset finds its blob, and every blob is found. */
  method CheckReferences(assets: seq<Asset>, blobs: seq<Blob>) returns (v: Result<Content, string>)
    ensures v == CheckContent(assets, blobs)
  {
    hide FindBy, SortBy;
    var referenced: set<Text>, i := {}, 0;
    while i < |assets|
      invariant i <= |assets| && ReferencesRefusal(blobs, assets, i).None?
      invariant referenced == Referenced(assets[..i])
    {
      var at := FindBy(blobs, BlobKey, assets[i].manifest.contentHash);
      if at == |blobs| {
        ReferencesFail(blobs, assets, i + 1, |assets|);
        return Err("MISSING_BLOB");
      }
      if |blobs[at].bytes| != assets[i].manifest.decodedLength {
        ReferencesFail(blobs, assets, i + 1, |assets|);
        return Err("SIZE_MISMATCH");
      }
      ReferencedNext(assets, i);
      referenced, i := referenced + {blobs[at].hash}, i + 1;
    }
    assert assets[..i] == assets;
    if |referenced| != |blobs| {
      return Err("EXTRA_BLOB");
    }
    v := Ok(Content(SortBy(assets, AssetKey), SortBy(blobs, BlobKey)));
  }

  lemma ReferencedNext(assets: seq<Asset>, i: nat)
    requires i < |assets|
    ensures Referenced(assets[..i + 1]) == Referenced(assets[..i]) + {assets[i].manifest.contentHash}
  {
    var a, b := assets[..i], assets[..i + 1];
    forall h | h in Referenced(b)
      ensures h in Referenced(a) + {assets[i].manifest.contentHash}
    {
      var k :| 0 <= k < |b| && b[k].manifest.contentHash == h;
      assert k < i ==> a[k] == b[k];
    }
    forall h | h in Referenced(a) + {assets[i].manifest.contentHash}
      ensures h in Referenced(b)
    {
      if h in Referenced(a) {
        var k :| 0 <= k < |a| && a[k].manifest.contentHash == h;
        assert b[k] == a[k];
      } else {
        assert b[i].manifest.contentHash == h;
      }
    }
  }

  lemma {:induction false} ReferencesFail(blobs: seq<Blob>, assets: seq<Asset>, m: nat, n: nat)
    requires m <= n <= |assets| && ReferencesRefusal(blobs, assets, m).Some?
    ensures ReferencesRefusal(blobs, assets, n) == ReferencesRefusal(blobs, assets, m)
    decreases n
  {
    hide ReferenceRefusal;
    if m < n {
      ReferencesFail(blobs, assets, m, n - 1);
    }
  }

  method ReadEntries(pl: Platform, bytes: Bytes) returns (v: Result<(seq<Asset>, seq<Packed>), string>)
    ensures v == TakeEntries(pl, bytes)
  {
    hide TakeMagic, TakeU32, TakeAssets, TakePackeds;
    var r := new Reader(bytes);
    var magic := r.Magic(BUNDLE_MAGIC);
    if magic.None? {
      return Err(BAD_BUNDLE);
    }
    var version := r.U32();
    if version.None? {
      return Err(BAD_BUNDLE);
    }
    if version.value != 1 {
      return Err("UNSUPPORTED_VERSION");
    }
    var assetCount := r.U32();
    if assetCount.None? {
      return Err(BAD_BUNDLE);
    }
    var blobCount := r.U32();
    if blobCount.None? {
      return Err(BAD_BUNDLE);
    }
    if assetCount.value > MANIFEST_LIMIT || blobCount.value > BLOB_LIMIT {
      return Err("BUDGET_EXCEEDED");
    }
    v := ReadLists(pl, r, assetCount.value, blobCount.value);
  }

  method ReadLists(pl: Platform, r: Reader, assetCount: nat, blobCount: nat) returns (v: Result<(seq<Asset>, seq<Packed>), string>)
    requires r.Valid()
    modifies r
    ensures v == TakeLists(pl, old(r.Rest()), assetCount, blobCount)
  {
    hide TakeAssets, TakePackeds;
    var assets :- ReadAssets(pl, r, assetCount);
    var ps :- ReadPackeds(pl, r, blobCount);
    assert r.at == |r.bytes| <==> r.Rest() == [];
    if r.at != |r.bytes| {
      return Err(BAD_BUNDLE);
    }
    v := Ok((assets, ps));
  }

  method DecodeBundle(pl: Platform, bytes: Bytes) returns (v: Result<Content, string>)
    ensures v == Decoded(pl, bytes)
  {
    hide TakeEntries, CheckContent;
    if |bytes| > BUNDLE_BYTE_LIMIT {
      return Err("BUDGET_EXCEEDED");
    }
    var entries :- ReadEntries(pl, bytes);
    v := CheckReferences(entries.0, Blobs(entries.1));
  }

  /** Merges what came in, entry by entry. */
  method MergeBundle(pl: Platform, st: Stock, bundle: Bytes) returns (v: Result<(Stock, seq<Text>), string>)
    ensures v == Imported(pl, st, bundle)
  {
    hide Decoded, FindBy, SortBy, WithinQuota;
    var incoming :- DecodeBundle(pl, bundle);
    var assets, i := st.assets, 0;
    while i < |incoming.assets|
      invariant i <= |incoming.assets| && MergeAssets(st.assets, incoming.assets, i) == Ok(assets)
    {
      var a := incoming.assets[i];
      var at := FindBy(assets, AssetKey, a.id);
      if at == |assets| {
        if |assets| == MANIFEST_LIMIT {
          AssetsFail(st.assets, incoming.assets, i + 1, |incoming.assets|);
          return Err("BUDGET_EXCEEDED");
        }
        assets := assets + [a];
      } else if assets[at].manifest != a.manifest {
        AssetsFail(st.assets, incoming.assets, i + 1, |incoming.assets|);
        return Err("HASH_MISMATCH");
      }
      i := i + 1;
    }
    var blobs, j := st.blobs, 0;
    while j < |incoming.blobs|
      invariant j <= |incoming.blobs| && MergeBlobs(st.blobs, incoming.blobs, j) == Ok(blobs)
    {
      var b := incoming.blobs[j];
      var at := FindBy(blobs, BlobKey, b.hash);
      if at == |blobs| {
        if |blobs| == BLOB_LIMIT {
          BlobsFail(st.blobs, incoming.blobs, j + 1, |incoming.blobs|);
          return Err("BUDGET_EXCEEDED");
        }
        blobs := blobs + [b];
      } else if blobs[at].bytes != b.bytes {
        BlobsFail(st.blobs, incoming.blobs, j + 1, |incoming.blobs|);
        return Err("HASH_MISMATCH");
      }
      j := j + 1;
    }
    var within := CheckQuota(assets, blobs);
    if !within {
      return Err("BUDGET_EXCEEDED");
    }
    v := Ok((st.(assets := SortBy(assets, AssetKey), blobs := SortBy(blobs, BlobKey)), Ids(incoming.assets)));
  }

  lemma {:induction false} AssetsFail(held: seq<Asset>, incoming: seq<Asset>, m: nat, n: nat)
    requires m <= n <= |incoming| && MergeAssets(held, incoming, m).Err?
    ensures MergeAssets(held, incoming, n) == MergeAssets(held, incoming, m)
    decreases n
  {
    hide FindBy;
    if m < n {
      AssetsFail(held, incoming, m, n - 1);
    }
  }

  lemma {:induction false} BlobsFail(held: seq<Blob>, incoming: seq<Blob>, m: nat, n: nat)
    requires m <= n <= |incoming| && MergeBlobs(held, incoming, m).Err?
    ensures MergeBlobs(held, incoming, n) == MergeBlobs(held, incoming, m)
    decreases n
  {
    hide FindBy;
    if m < n {
      BlobsFail(held, incoming, m, n - 1);
    }
  }

  /** Adds up the sizes without ever exceeding the limit. */
  method CheckQuota(assets: seq<Asset>, blobs: seq<Blob>) returns (within: bool)
    ensures within == WithinQuota(assets, blobs)
  {
    hide SumBy;
    if |assets| > MANIFEST_LIMIT || |blobs| > BLOB_LIMIT {
      return false;
    }
    var total, i := 0, 0;
    assert blobs[..0] == [];
    NoBlobs();
    while i < |blobs|
      invariant i <= |blobs| && total == Total(blobs[..i]) <= DECODED_BYTE_LIMIT
      invariant forall k :: 0 <= k < i ==> |blobs[k].bytes| <= BLOB_BYTE_LIMIT
    {
      assert blobs[..i + 1] == blobs[..i] + [blobs[i]];
      SumAppend(blobs[..i], blobs[i], BlobSize);
      if |blobs[i].bytes| > BLOB_BYTE_LIMIT || |blobs[i].bytes| > DECODED_BYTE_LIMIT - total {
        SumPart(blobs, BlobSize, i + 1);
        return false;
      }
      total, i := total + |blobs[i].bytes|, i + 1;
    }
    assert blobs[..i] == blobs;
    within := true;
  }

  /** Keeps the rooted assets, then the blobs they refer to. */
  method CollectGarbage(st: Stock) returns (next: Stock)
    ensures next == Collected(st)
  {
    hide Referenced;
    var retained, k := set id | id in st.currentRoots, 0;
    while k < |st.historyRoots|
      invariant k <= |st.historyRoots|
      invariant forall id :: id in retained <==> id in st.currentRoots || exists j :: 0 <= j < k && id in st.historyRoots[j].ids
    {
      retained, k := retained + (set id | id in st.historyRoots[k].ids), k + 1;
    }
    SameFilter(st.assets, (a: Asset) => a.id in retained, (a: Asset) => Rooted(st, a.id));
    var assets := FilterBy(st.assets, (a: Asset) => a.id in retained);
    var reachable := Referenced(assets);
    SameFilter(st.blobs, (b: Blob) => b.hash in reachable, (b: Blob) => b.hash in Referenced(assets));
    next := st.(assets := assets, blobs := FilterBy(st.blobs, (b: Blob) => b.hash in reachable));
  }

  class Catalog {
    var state: Stock

    ghost predicate Valid(pl: Platform)
      reads this
    {
      Stocked(pl, state)
    }

    constructor (pl: Platform)
      ensures Valid(pl) && state == EMPTY
    {
      state := EMPTY;
      new;
      EmptyStocked(pl);
    }

    /** Executes a command on a staged copy, and publishes the copy only when everything succeeded. */
    method Apply(pl: Platform, command: Command, expected: u64) returns (outcome: Outcome)
      requires Valid(pl)
      modifies this
      ensures Valid(pl)
      ensures (state, outcome) == Applied(pl, old(state), command, expected)
    {
      hide Stocked, Imported, CheckRoots, SortBy, FilterBy, Collected, RootName, FindBy;
      AppliedKeeps(pl, state, command, expected);
      if expected != state.revision {
        return Outcome(false, state.revision, "REVISION_CONFLICT", [], 0, 0);
      }
      if state.revision == U64_MAX {
        return Outcome(false, state.revision, "REVISION_EXHAUSTED", [], 0, 0);
      }
      var staged := Stage(pl, command);
      if staged.Err? {
        return Outcome(false, state.revision, staged.error, [], 0, 0);
      }
      var (next, imported) := staged.value;
      outcome := Outcome(true, state.revision + 1, "", imported,
                         if |next.assets| <= |state.assets| then |state.assets| - |next.assets| else 0,
                         if |next.blobs| <= |state.blobs| then |state.blobs| - |next.blobs| else 0);
      state := next.(revision := state.revision + 1);
    }

    method Stage(pl: Platform, command: Command) returns (staged: Result<(Stock, seq<Text>), string>)
      ensures staged == Executed(pl, state, command)
    {
      hide Imported, CheckRoots, SortBy, FilterBy, RootName, FindBy, Rooted, Referenced;
      match command
      case Import(bundle) => staged := MergeBundle(pl, state, bundle);
      case SetCurrentRoots(ids) =>
        var roots :- CheckRoots(state.assets, ids);
        staged := NoImport(state.(currentRoots := roots));
      case SetHistoryRoots(name, ids) =>
        if !RootName(name) {
          return Err("INVALID_ROOT");
        }
        var roots :- CheckRoots(state.assets, ids);
        var history := state.historyRoots;
        var at := FindBy(history, NameKey, name);
        if at < |history| {
          history := history[at := HistoryRoots(name, roots)];
        } else {
          if |history| == HISTORY_LIMIT {
            return Err("BUDGET_EXCEEDED");
          }
          history := history + [HistoryRoots(name, roots)];
        }
        staged := NoImport(state.(historyRoots := SortBy(history, NameKey)));
      case RemoveHistoryRoots(name) =>
        if !RootName(name) {
          return Err("INVALID_ROOT");
        }
        staged := NoImport(state.(historyRoots := FilterBy(state.historyRoots, (h: HistoryRoots) => h.name != name)));
      case Collect =>
        var next := CollectGarbage(state);
        staged := NoImport(next);
    }

    /** Appends the entries in order, blobs raw. */
    method ExportBundle(pl: Platform) returns (bytes: Bytes)
      requires Valid(pl)
      ensures bytes == Exported(pl, state) && |bytes| <= BUNDLE_BYTE_LIMIT
    {
      hide ManifestBytes, Unhex, ValidManifest, HashText, Complete, HistorySound, RootsSound, SumBy;
      ExportFits(pl, state);
      StockedEntries(pl, state);
      FitIsSound(pl, state.assets, RawBlobs(state.blobs));
      FitPrintables(pl, state.assets, RawBlobs(state.blobs));
      ghost var tail := PackedList(RawBlobs(state.blobs), []);
      bytes := BUNDLE_MAGIC + LE(1, 4) + LE(|state.assets|, 4) + LE(|state.blobs|, 4);
      Flat4(BUNDLE_MAGIC, LE(1, 4), LE(|state.assets|, 4), LE(|state.blobs|, 4), AssetList(state.assets, tail));
      var i := 0;
      assert state.assets[0..] == state.assets;
      while i < |state.assets|
        invariant i <= |state.assets| && Printables(state.assets[i..])
        invariant bytes + AssetList(state.assets[i..], tail) == Exported(pl, state)
      {
        var a := state.assets[i];
        assert state.assets[i..][0] == a && state.assets[i..][1..] == state.assets[i + 1..];
        PrintableAsset(a);
        var entry := WriteAsset(a);
        AssetAppends(bytes, entry, a, AssetList(state.assets[i + 1..], tail));
        bytes, i := bytes + entry, i + 1;
      }
      assert state.assets[i..] == [];
      var j := 0;
      assert RawBlobs(state.blobs)[0..] == RawBlobs(state.blobs);
      while j < |state.blobs|
        invariant j <= |state.blobs|
        invariant bytes + PackedList(RawBlobs(state.blobs)[j..], []) == Exported(pl, state)
      {
        var b := state.blobs[j];
        ghost var ps := RawBlobs(state.blobs);
        assert ps[j..][0] == Raw(b) && ps[j..][1..] == ps[j + 1..];
        var entry := Short(BLOB_PATH + b.hash, [0] + LE(|b.bytes|, 4) + LE(|b.bytes|, 4) + b.bytes);
        RawAppends(bytes, entry, b, PackedList(ps[j + 1..], []));
        bytes, j := bytes + entry, j + 1;
      }
      assert RawBlobs(state.blobs)[j..] == [] && bytes + [] == bytes;
    }

    /** One row for each asset and each blob, and the candidates for removal. */
    method InspectRetention(pl: Platform, expected: u64) returns (r: Result<Report, string>)
      requires Valid(pl)
      ensures RootsSorted(state) && r == Inspected(state, expected)
    {
      hide Stocked, RootsSorted, Keepers, Contains, Referring;
      StockedSorted(pl, state);
      if expected != state.revision {
        return Err("REVISION_CONFLICT");
      }
      var assets: seq<AssetRow>, removableAssets: seq<Text>, i := [], [], 0;
      ghost var rows := AssetRows(state, |state.assets|);
      while i < |state.assets|
        invariant i <= |state.assets| && assets == AssetRows(state, i)
        invariant removableAssets == UnkeptIds(rows, i)
      {
        var row := ExplainAsset(state, state.assets[i]);
        assert rows[i] == row;
        if Unkept(row) {
          removableAssets := removableAssets + [row.id];
        }
        assets, i := assets + [row], i + 1;
      }
      var blobs: seq<BlobRow>, removableBlobs: seq<Text>, j := [], [], 0;
      ghost var blobRows := BlobRows(rows, state.blobs, |state.blobs|);
      while j < |state.blobs|
        invariant j <= |state.blobs| && blobs == BlobRows(rows, state.blobs, j)
        invariant removableBlobs == LooseHashes(blobRows, j)
      {
        var row := ExplainBlob(assets, state.blobs[j]);
        assert blobRows[j] == row;
        if row.retaining == [] {
          removableBlobs := removableBlobs + [row.hash];
        }
        blobs, j := blobs + [row], j + 1;
      }
      r := Ok(Report(state.currentRoots, state.historyRoots, assets, blobs, removableAssets, removableBlobs));
    }
  }

  lemma PrintableAsset(a: Asset)
    requires ValidManifest(a.manifest)
    ensures ValidHash(a.manifest.contentHash)
  {
  }

  method WriteAsset(a: Asset) returns (entry: Bytes)
    requires ValidHash(a.id) && ValidHash(a.manifest.contentHash)
    ensures entry == AssetBytes(a, [])
  {
    hide ManifestBytes;
    var m := ManifestBytes(a.manifest);
    entry := Unhex(a.id) + LE(|m|, 4) + m;
    assert m + [] == m;
    Flat2(Unhex(a.id), LE(|m|, 4), m);
  }

  lemma AssetAppends(bytes: Bytes, entry: Bytes, a: Asset, rest: Bytes)
    requires ValidHash(a.id) && ValidHash(a.manifest.contentHash) && entry == AssetBytes(a, [])
    ensures bytes + entry + rest == bytes + AssetBytes(a, rest)
  {
    hide ManifestBytes;
    var m := ManifestBytes(a.manifest);
    Flat2(bytes, entry, rest);
    assert m + [] == m;
    Flat2(Unhex(a.id), LE(|m|, 4) + m, rest);
    Flat2(LE(|m|, 4), m, rest);
  }

  lemma RawAppends(bytes: Bytes, entry: Bytes, b: Blob, rest: Bytes)
    requires entry == Short(BLOB_PATH + b.hash, [0] + LE(|b.bytes|, 4) + LE(|b.bytes|, 4) + b.bytes)
    ensures bytes + entry + rest == bytes + PackedBytes(Raw(b), rest)
  {
    var path, n := BLOB_PATH + b.hash, LE(|b.bytes|, 4);
    Flat2(bytes, entry, rest);
    Flat3([0], n, n, b.bytes);
    RightNested(LE(|path|, 2), path, [0], n, n, b.bytes, rest);
  }

  method ExplainAsset(st: Stock, a: Asset) returns (row: AssetRow)
    requires RootsSorted(st)
    ensures row == AssetRowOf(st, a)
  {
    hide Contains;
    var names: seq<Text>, k := [], 0;
    while k < |st.historyRoots|
      invariant k <= |st.historyRoots| && names == Keepers(st, a.id, k)
    {
      if Contains(st.historyRoots[k].ids, a.id) {
        names := names + [st.historyRoots[k].name];
      }
      k := k + 1;
    }
    row := AssetRow(a.id, a.manifest.contentHash, Contains(st.currentRoots, a.id), names);
  }

  method ExplainBlob(assets: seq<AssetRow>, b: Blob) returns (row: BlobRow)
    ensures row == BlobRowOf(assets, b)
  {
    var referencing: seq<Text>, retaining: seq<Text>, i := [], [], 0;
    while i < |assets|
      invariant i <= |assets|
      invariant referencing == Referring(assets, b.hash, false, i) && retaining == Referring(assets, b.hash, true, i)
    {
      if assets[i].contentHash == b.hash {
        referencing := referencing + [assets[i].id];
        if assets[i].currentRoot || assets[i].historyRoots != [] {
          retaining := retaining + [assets[i].id];
        }
      }
      i := i + 1;
    }
    row := BlobRow(b.hash, referencing, retaining);
  }
}
