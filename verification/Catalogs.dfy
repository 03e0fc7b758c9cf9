/** The asset catalog: commands on a staged copy, retention roots, and collection. */
module Catalogs {
  import opened Prelude
  import opened Texts
  import opened Commands
  import opened Keyed
  import opened Manifests
  import opened Bundles
  import opened Reorder

  const HISTORY_LIMIT := 4
  const ROOTS_LIMIT := 8

  datatype HistoryRoots = HistoryRoots(name: Text, ids: seq<Text>)

  datatype Stock = Stock(revision: u64, assets: seq<Asset>, blobs: seq<Blob>, currentRoots: seq<Text>, historyRoots: seq<HistoryRoots>)

  datatype Command =
    | Import(bundle: Bytes)
    | SetCurrentRoots(ids: seq<Text>)
    | SetHistoryRoots(name: Text, ids: seq<Text>)
    | RemoveHistoryRoots(name: Text)
    | Collect

  datatype Outcome = Outcome(committed: bool, revision: u64, code: string, imported: seq<Text>, manifestsRemoved: nat, blobsRemoved: nat)

  const EMPTY := Stock(0, [], [], [], [])

  const NameKey: HistoryRoots -> Text := (h: HistoryRoots) => h.name

  // Roots

  /** The first complaint about a list of roots. */
  function RootsRefusal(assets: seq<Asset>, ids: seq<Text>, n: nat): Option<string>
    requires n <= |ids|
  {
    if n == 0 then None
    else
      var before := RootsRefusal(assets, ids, n - 1);
      if before.Some? then before
      else if !ValidHash(ids[n - 1]) then Some("INVALID_ROOT")
      else if FindBy(assets, AssetKey, ids[n - 1]) == |assets| then Some("UNKNOWN_ASSET")
      else None
  }

  predicate AdjacentEqual(list: seq<Text>) {
    exists i :: 1 <= i < |list| && list[i] == list[i - 1]
  }

  function CheckRoots(assets: seq<Asset>, ids: seq<Text>): Result<seq<Text>, string> {
    if |ids| > ROOTS_LIMIT then Err("BUDGET_EXCEEDED")
    else if RootsRefusal(assets, ids, |ids|).Some? then Err(RootsRefusal(assets, ids, |ids|).value)
    else if AdjacentEqual(Sort(ids)) then Err("DUPLICATE_ENTRY")
    else Ok(Sort(ids))
  }

  predicate Letter(c: byte) {
    0x61 <= c <= 0x7A || 0x41 <= c <= 0x5A
  }

  predicate RootName(name: Text) {
    && 0 < |name| <= 32 && Letter(name[0])
    && forall i :: 0 <= i < |name| ==> Letter(name[i]) || 0x30 <= name[i] <= 0x39 || name[i] in [0x5F, 0x2E, 0x2D]
  }

  // Importing

  /** The assets held after the first `n` incoming ones are merged in. */
  function MergeAssets(held: seq<Asset>, incoming: seq<Asset>, n: nat): Result<seq<Asset>, string>
    requires n <= |incoming|
  {
    if n == 0 then Ok(held)
    else
      var before :- MergeAssets(held, incoming, n - 1);
      var a := incoming[n - 1];
      var at := FindBy(before, AssetKey, a.id);
      if at == |before| then (if |before| == MANIFEST_LIMIT then Err("BUDGET_EXCEEDED") else Ok(before + [a]))
      else if before[at].manifest != a.manifest then Err("HASH_MISMATCH")
      else Ok(before)
  }

  function MergeBlobs(held: seq<Blob>, incoming: seq<Blob>, n: nat): Result<seq<Blob>, string>
    requires n <= |incoming|
  {
    if n == 0 then Ok(held)
    else
      var before :- MergeBlobs(held, incoming, n - 1);
      var b := incoming[n - 1];
      var at := FindBy(before, BlobKey, b.hash);
      if at == |before| then (if |before| == BLOB_LIMIT then Err("BUDGET_EXCEEDED") else Ok(before + [b]))
      else if before[at].bytes != b.bytes then Err("HASH_MISMATCH")
      else Ok(before)
  }

  predicate WithinQuota(assets: seq<Asset>, blobs: seq<Blob>) {
    && |assets| <= MANIFEST_LIMIT && |blobs| <= BLOB_LIMIT
    && (forall i :: 0 <= i < |blobs| ==> |blobs[i].bytes| <= BLOB_BYTE_LIMIT)
    && Total(blobs) <= DECODED_BYTE_LIMIT
  }

  function Ids(assets: seq<Asset>): (r: seq<Text>)
    ensures |r| == |assets| && forall i :: 0 <= i < |r| ==> r[i] == assets[i].id
  {
    seq(|assets|, i requires 0 <= i < |assets| => assets[i].id)
  }

  function Imported(pl: Platform, st: Stock, bundle: Bytes): Result<(Stock, seq<Text>), string> {
    var incoming :- Decoded(pl, bundle);
    var assets :- MergeAssets(st.assets, incoming.assets, |incoming.assets|);
    var blobs :- MergeBlobs(st.blobs, incoming.blobs, |incoming.blobs|);
    if !WithinQuota(assets, blobs) then Err("BUDGET_EXCEEDED")
    else Ok((st.(assets := SortBy(assets, AssetKey), blobs := SortBy(blobs, BlobKey)), Ids(incoming.assets)))
  }

  // Collecting

  predicate Rooted(st: Stock, id: Text) {
    id in st.currentRoots || exists k :: 0 <= k < |st.historyRoots| && id in st.historyRoots[k].ids
  }

  function Collected(st: Stock): Stock {
    var assets := FilterBy(st.assets, (a: Asset) => Rooted(st, a.id));
    var blobs := FilterBy(st.blobs, (b: Blob) => b.hash in Referenced(assets));
    st.(assets := assets, blobs := blobs)
  }

  // Commands

  function NoImport(st: Stock): Result<(Stock, seq<Text>), string> {
    Ok((st, []))
  }

  function Executed(pl: Platform, st: Stock, command: Command): Result<(Stock, seq<Text>), string> {
    match command
    case Import(bundle) => Imported(pl, st, bundle)
    case SetCurrentRoots(ids) =>
      var roots :- CheckRoots(st.assets, ids);
      NoImport(st.(currentRoots := roots))
    case SetHistoryRoots(name, ids) =>
      if !RootName(name) then Err("INVALID_ROOT")
      else
        var roots :- CheckRoots(st.assets, ids);
        var at := FindBy(st.historyRoots, NameKey, name);
        if at < |st.historyRoots| then
          NoImport(st.(historyRoots := SortBy(st.historyRoots[at := HistoryRoots(name, roots)], NameKey)))
        else if |st.historyRoots| == HISTORY_LIMIT then Err("BUDGET_EXCEEDED")
        else NoImport(st.(historyRoots := SortBy(st.historyRoots + [HistoryRoots(name, roots)], NameKey)))
    case RemoveHistoryRoots(name) =>
      if !RootName(name) then Err("INVALID_ROOT")
      else NoImport(st.(historyRoots := FilterBy(st.historyRoots, (h: HistoryRoots) => h.name != name)))
    case Collect => NoImport(Collected(st))
  }

  function Rejected(st: Stock, code: string): (Stock, Outcome) {
    (st, Outcome(false, st.revision, code, [], 0, 0))
  }

  /** A command either commits, moving the revision by one, or leaves the whole state as it was. */
  function Applied(pl: Platform, st: Stock, command: Command, expected: u64): (Stock, Outcome) {
    if expected != st.revision then Rejected(st, "REVISION_CONFLICT")
    else if st.revision == U64_MAX then Rejected(st, "REVISION_EXHAUSTED")
    else
      match Executed(pl, st, command)
      case Err(code) => Rejected(st, code)
      case Ok((next, imported)) =>
        (next.(revision := st.revision + 1),
         Outcome(true, st.revision + 1, "", imported,
                 if |next.assets| <= |st.assets| then |st.assets| - |next.assets| else 0,
                 if |next.blobs| <= |st.blobs| then |st.blobs| - |next.blobs| else 0))
  }

  // What every catalog satisfies

  /** Sorted, without duplicates, and naming held assets. */
  predicate RootsSound(assets: seq<Asset>, ids: seq<Text>) {
    && |ids| <= ROOTS_LIMIT
    && (forall i, j :: 0 <= i < j < |ids| ==> Less(ids[i], ids[j]))
    && forall i :: 0 <= i < |ids| ==> Holds(assets, ids[i])
  }

  predicate Holds(assets: seq<Asset>, id: Text) {
    exists k :: 0 <= k < |assets| && assets[k].id == id
  }

  predicate HistorySound(assets: seq<Asset>, history: seq<HistoryRoots>) {
    && |history| <= HISTORY_LIMIT && StrictBy(history, NameKey)
    && forall k :: 0 <= k < |history| ==> RootName(history[k].name) && RootsSound(assets, history[k].ids)
  }

  predicate ContentSound(pl: Platform, assets: seq<Asset>, blobs: seq<Blob>) {
    && StrictBy(assets, AssetKey) && StrictBy(blobs, BlobKey)
    && (forall i :: 0 <= i < |assets| ==> AssetSound(pl, assets[i]))
    && (forall i :: 0 <= i < |blobs| ==> BlobSound(pl, blobs[i]))
    && WithinQuota(assets, blobs)
    && Complete(assets, blobs)
  }

  /** No root without its asset, no asset without its blob, no blob without an asset, and every list sorted. */
  predicate Stocked(pl: Platform, st: Stock) {
    && ContentSound(pl, st.assets, st.blobs)
    && RootsSound(st.assets, st.currentRoots) && HistorySound(st.assets, st.historyRoots)
  }

  lemma EmptyStocked(pl: Platform)
    ensures Stocked(pl, EMPTY)
  {
  }

  // Roots stay sound

  lemma {:induction false} RootsKnown(assets: seq<Asset>, ids: seq<Text>, n: nat)
    requires n <= |ids| && RootsRefusal(assets, ids, n).None?
    ensures forall i :: 0 <= i < n ==> Holds(assets, ids[i])
  {
    if n > 0 {
      RootsKnown(assets, ids, n - 1);
      var at := FindBy(assets, AssetKey, ids[n - 1]);
      assert assets[at].id == ids[n - 1];
    }
  }

  lemma {:induction false} NoneBetween(list: seq<Text>, i: nat, j: nat)
    requires Sorted(list) && !AdjacentEqual(list) && i < j < |list|
    ensures Less(list[i], list[j])
  {
    LessTotal(list[j - 1], list[j]);
    if i < j - 1 {
      NoneBetween(list, i, j - 1);
      LessTransitive(list[i], list[j - 1], list[j]);
    }
  }

  /** Accepted roots come out sorted, without duplicates, exactly those given. */
  lemma CheckedRoots(assets: seq<Asset>, ids: seq<Text>)
    requires CheckRoots(assets, ids).Ok?
    ensures RootsSound(assets, CheckRoots(assets, ids).value)
    ensures multiset(CheckRoots(assets, ids).value) == multiset(ids)
  {
    hide Less;
    var r := CheckRoots(assets, ids).value;
    SortSorted(ids);
    RootsKnown(assets, ids, |ids|);
    SameMembers(r, ids);
    SameLength(r, ids);
    forall i, j | 0 <= i < j < |r|
      ensures Less(r[i], r[j])
    {
      NoneBetween(r, i, j);
    }
    forall i | 0 <= i < |r|
      ensures Holds(assets, r[i])
    {
      assert r[i] in ids;
    }
  }

  lemma RootsCarry(assets: seq<Asset>, assets': seq<Asset>, ids: seq<Text>)
    requires RootsSound(assets, ids) && forall i :: 0 <= i < |ids| ==> Holds(assets', ids[i])
    ensures RootsSound(assets', ids)
  {
  }

  lemma HistoryPut(assets: seq<Asset>, history: seq<HistoryRoots>, name: Text, ids: seq<Text>)
    requires HistorySound(assets, history) && RootName(name) && RootsSound(assets, ids)
    ensures
      var at := FindBy(history, NameKey, name);
      && (at < |history| ==> HistorySound(assets, SortBy(history[at := HistoryRoots(name, ids)], NameKey)))
      && (at == |history| != HISTORY_LIMIT ==> HistorySound(assets, SortBy(history + [HistoryRoots(name, ids)], NameKey)))
  {
    hide RootName, RootsSound, Less;
    var at, entry := FindBy(history, NameKey, name), HistoryRoots(name, ids);
    StrictDistinct(history, NameKey);
    if at < |history| {
      HistorySorted(assets, history[at := entry]);
    } else if |history| != HISTORY_LIMIT {
      assert forall i :: 0 <= i < |history| ==> NameKey(history[i]) != name;
      HistorySorted(assets, history + [entry]);
    }
  }

  lemma {:induction false} HistorySorted(assets: seq<Asset>, list: seq<HistoryRoots>)
    requires |list| <= HISTORY_LIMIT && DistinctBy(list, NameKey)
    requires forall k :: 0 <= k < |list| ==> RootName(list[k].name) && RootsSound(assets, list[k].ids)
    ensures HistorySound(assets, SortBy(list, NameKey))
  {
    hide RootName, RootsSound, Less;
    var r := SortBy(list, NameKey);
    SortStrict(list, NameKey);
    SameMembers(r, list);
    forall k | 0 <= k < |r|
      ensures RootName(r[k].name) && RootsSound(assets, r[k].ids)
    {
      assert r[k] in list;
    }
  }

  lemma HistoryRemoved(assets: seq<Asset>, history: seq<HistoryRoots>, name: Text)
    requires HistorySound(assets, history)
    ensures HistorySound(assets, FilterBy(history, (h: HistoryRoots) => h.name != name))
  {
    hide RootName, RootsSound, Less;
    var keep := (h: HistoryRoots) => h.name != name;
    var r := FilterBy(history, keep);
    FilterStrict(history, keep, NameKey);
    FilterMembers(history, keep);
    forall k | 0 <= k < |r|
      ensures RootName(r[k].name) && RootsSound(assets, r[k].ids)
    {
      assert r[k] in r && r[k] in history;
    }
  }

  lemma HistoryCarry(assets: seq<Asset>, assets': seq<Asset>, history: seq<HistoryRoots>)
    requires HistorySound(assets, history)
    requires forall k, i :: 0 <= k < |history| && 0 <= i < |history[k].ids| ==> Holds(assets', history[k].ids[i])
    ensures HistorySound(assets', history)
  {
    hide RootName, StrictBy;
    forall k | 0 <= k < |history|
      ensures RootsSound(assets', history[k].ids)
    {
      RootsCarry(assets, assets', history[k].ids);
    }
  }

  // Importing keeps the catalog sound

  /** What merging leaves: everything held, everything incoming, and nothing else. */
  ghost predicate Merged<T(!new)>(held: seq<T>, incoming: seq<T>, n: nat, r: seq<T>)
    requires n <= |incoming|
  {
    && (forall x :: x in held ==> x in r)
    && (forall i :: 0 <= i < n ==> incoming[i] in r)
    && (forall x :: x in r ==> x in held || exists i :: 0 <= i < n && incoming[i] == x)
  }

  lemma MergedKept<T(!new)>(held: seq<T>, incoming: seq<T>, n: nat, r: seq<T>)
    requires n < |incoming| && Merged(held, incoming, n, r) && incoming[n] in r
    ensures Merged(held, incoming, n + 1, r)
  {
  }

  lemma MergedAdded<T(!new)>(held: seq<T>, incoming: seq<T>, n: nat, r: seq<T>)
    requires n < |incoming| && Merged(held, incoming, n, r)
    ensures Merged(held, incoming, n + 1, r + [incoming[n]])
  {
    var more := r + [incoming[n]];
    assert more[|r|] == incoming[n];
    forall x | x in more
      ensures x in held || exists i :: 0 <= i < n + 1 && incoming[i] == x
    {
      if x in r && x !in held {
        var i :| 0 <= i < n && incoming[i] == x;
      }
    }
  }

  lemma {:induction false} AssetsMerged(held: seq<Asset>, incoming: seq<Asset>, n: nat)
    requires n <= |incoming| && MergeAssets(held, incoming, n).Ok? && DistinctBy(held, AssetKey) && |held| <= MANIFEST_LIMIT
    ensures
      var r := MergeAssets(held, incoming, n).value;
      DistinctBy(r, AssetKey) && |r| <= MANIFEST_LIMIT && Merged(held, incoming, n, r)
  {
    hide Merged;
    if n == 0 {
      NothingMerged(held, incoming);
    } else {
      AssetsMerged(held, incoming, n - 1);
      var before, a := MergeAssets(held, incoming, n - 1).value, incoming[n - 1];
      var at := FindBy(before, AssetKey, a.id);
      if at == |before| {
        assert forall i :: 0 <= i < |before| ==> AssetKey(before[i]) != AssetKey(a);
        MergedAdded(held, incoming, n - 1, before);
      } else {
        assert before[at] == a;
        MergedKept(held, incoming, n - 1, before);
      }
    }
  }

  lemma NothingMerged<T(!new)>(held: seq<T>, incoming: seq<T>)
    ensures Merged(held, incoming, 0, held)
  {
  }

  lemma {:induction false} BlobsMerged(held: seq<Blob>, incoming: seq<Blob>, n: nat)
    requires n <= |incoming| && MergeBlobs(held, incoming, n).Ok? && DistinctBy(held, BlobKey) && |held| <= BLOB_LIMIT
    ensures
      var r := MergeBlobs(held, incoming, n).value;
      DistinctBy(r, BlobKey) && |r| <= BLOB_LIMIT && Merged(held, incoming, n, r)
  {
    hide Merged;
    if n == 0 {
      NothingMerged(held, incoming);
    } else {
      BlobsMerged(held, incoming, n - 1);
      var before, b := MergeBlobs(held, incoming, n - 1).value, incoming[n - 1];
      var at := FindBy(before, BlobKey, b.hash);
      if at == |before| {
        assert forall i :: 0 <= i < |before| ==> BlobKey(before[i]) != BlobKey(b);
        MergedAdded(held, incoming, n - 1, before);
      } else {
        assert before[at] == b;
        MergedKept(held, incoming, n - 1, before);
      }
    }
  }

  /** What a decoded bundle holds. */
  lemma DecodedSound(pl: Platform, b: Bytes)
    requires Decoded(pl, b).Ok?
    ensures
      var c := Decoded(pl, b).value;
      && StrictBy(c.assets, AssetKey) && StrictBy(c.blobs, BlobKey) && Complete(c.assets, c.blobs)
      && (forall i :: 0 <= i < |c.assets| ==> AssetSound(pl, c.assets[i]))
      && (forall i :: 0 <= i < |c.blobs| ==> BlobSound(pl, c.blobs[i]))
  {
    hide BundleBytes, TakeEntries, AssetSound, PackedSound, BlobSound, CheckContent, Complete, SumBy, DistinctBy, EntriesFit;
    EntriesWritten(pl, b);
    var (assets, ps) := TakeEntries(pl, b).value;
    FitIsSound(pl, assets, ps);
    SoundDistinct(pl, assets, ps);
    CheckExact(assets, Blobs(ps));
    var c := Decoded(pl, b).value;
    SortStrict(assets, AssetKey);
    SortStrict(Blobs(ps), BlobKey);
    SameMembers(c.assets, assets);
    SameMembers(c.blobs, Blobs(ps));
    CompleteMembers(assets, Blobs(ps), c.assets, c.blobs);
    forall i | 0 <= i < |c.assets|
      ensures AssetSound(pl, c.assets[i])
    {
      assert c.assets[i] in assets;
    }
    forall i | 0 <= i < |c.blobs|
      ensures BlobSound(pl, c.blobs[i])
    {
      assert c.blobs[i] in Blobs(ps);
      var k :| 0 <= k < |ps| && Blobs(ps)[k] == c.blobs[i];
      PackedBlob(pl, ps[k]);
    }
  }

  lemma PackedBlob(pl: Platform, p: Packed)
    requires PackedSound(pl, p)
    ensures BlobSound(pl, p.blob)
  {
  }

  /** Held and incoming content are complete together. */
  lemma MergedComplete(assets: seq<Asset>, blobs: seq<Blob>, c: Content, assets': seq<Asset>, blobs': seq<Blob>)
    requires Complete(assets, blobs) && Complete(c.assets, c.blobs)
    requires Merged(assets, c.assets, |c.assets|, assets') && Merged(blobs, c.blobs, |c.blobs|, blobs')
    ensures Complete(assets', blobs')
  {
    hide Provided;
    assert forall x :: x in c.blobs ==> x in blobs';
    assert forall x :: x in c.assets ==> x in assets';
    forall i | 0 <= i < |assets'|
      ensures Provided(blobs', assets'[i])
    {
      assert assets'[i] in assets';
      if assets'[i] in assets {
        var k :| 0 <= k < |assets| && assets[k] == assets'[i];
        ProvidedCarry(blobs, blobs', assets[k]);
      } else {
        var k :| 0 <= k < |c.assets| && c.assets[k] == assets'[i];
        ProvidedCarry(c.blobs, blobs', c.assets[k]);
      }
    }
    forall h | h in Hashes(blobs')
      ensures h in Referenced(assets')
    {
      var j :| 0 <= j < |blobs'| && blobs'[j].hash == h;
      assert blobs'[j] in blobs';
      if blobs'[j] in blobs {
        var m :| 0 <= m < |blobs| && blobs[m] == blobs'[j];
        assert h in Hashes(blobs);
        ReferencedCarry(assets, assets', h);
      } else {
        var m :| 0 <= m < |c.blobs| && c.blobs[m] == blobs'[j];
        assert h in Hashes(c.blobs);
        ReferencedCarry(c.assets, assets', h);
      }
    }
  }

  lemma {:induction false} SortedQuota(assets: seq<Asset>, blobs: seq<Blob>)
    requires WithinQuota(assets, blobs)
    ensures WithinQuota(SortBy(assets, AssetKey), SortBy(blobs, BlobKey))
  {
    hide SumBy;
    var r := SortBy(blobs, BlobKey);
    SumSame(blobs, r, BlobSize);
    SameMembers(r, blobs);
    forall i | 0 <= i < |r|
      ensures |r[i].bytes| <= BLOB_BYTE_LIMIT
    {
      assert r[i] in blobs;
    }
  }

  lemma ImportContent(pl: Platform, st: Stock, bundle: Bytes)
    requires ContentSound(pl, st.assets, st.blobs) && Imported(pl, st, bundle).Ok?
    ensures
      var next := Imported(pl, st, bundle).value.0;
      && ContentSound(pl, next.assets, next.blobs) && Decoded(pl, bundle).Ok?
      && (forall x :: x in next.assets <==> x in st.assets || x in Decoded(pl, bundle).value.assets)
      && (forall x :: x in next.blobs <==> x in st.blobs || x in Decoded(pl, bundle).value.blobs)
  {
    hide Decoded, AssetSound, BlobSound, Complete, StrictBy, DistinctBy, WithinQuota, Merged, Less;
    var c, next := Decoded(pl, bundle).value, Imported(pl, st, bundle).value.0;
    var assets, blobs := MergeAssets(st.assets, c.assets, |c.assets|).value, MergeBlobs(st.blobs, c.blobs, |c.blobs|).value;
    DecodedSound(pl, bundle);
    QuotaCounts(st.assets, st.blobs);
    StrictDistinct(st.assets, AssetKey);
    StrictDistinct(st.blobs, BlobKey);
    AssetsMerged(st.assets, c.assets, |c.assets|);
    BlobsMerged(st.blobs, c.blobs, |c.blobs|);
    MergedComplete(st.assets, st.blobs, c, assets, blobs);
    SortStrict(assets, AssetKey);
    SortStrict(blobs, BlobKey);
    SortedQuota(assets, blobs);
    SameMembers(next.assets, assets);
    SameMembers(next.blobs, blobs);
    CompleteMembers(assets, blobs, next.assets, next.blobs);
    MergedSound(pl, st, c, assets, blobs);
    forall i | 0 <= i < |next.assets|
      ensures AssetSound(pl, next.assets[i])
    {
      assert next.assets[i] in assets;
    }
    forall i | 0 <= i < |next.blobs|
      ensures BlobSound(pl, next.blobs[i])
    {
      assert next.blobs[i] in blobs;
    }
  }

  lemma QuotaCounts(assets: seq<Asset>, blobs: seq<Blob>)
    requires WithinQuota(assets, blobs)
    ensures |assets| <= MANIFEST_LIMIT && |blobs| <= BLOB_LIMIT
  {
  }

  lemma MergedSound(pl: Platform, st: Stock, c: Content, assets: seq<Asset>, blobs: seq<Blob>)
    requires (forall i :: 0 <= i < |st.assets| ==> AssetSound(pl, st.assets[i])) && forall i :: 0 <= i < |st.blobs| ==> BlobSound(pl, st.blobs[i])
    requires (forall i :: 0 <= i < |c.assets| ==> AssetSound(pl, c.assets[i])) && forall i :: 0 <= i < |c.blobs| ==> BlobSound(pl, c.blobs[i])
    requires Merged(st.assets, c.assets, |c.assets|, assets) && Merged(st.blobs, c.blobs, |c.blobs|, blobs)
    ensures (forall x :: x in assets ==> AssetSound(pl, x)) && forall x :: x in blobs ==> BlobSound(pl, x)
    ensures (forall x :: x in assets <==> x in st.assets || x in c.assets) && forall x :: x in blobs <==> x in st.blobs || x in c.blobs
  {
    hide AssetSound, BlobSound;
  }

  /** An import keeps everything held, adds everything incoming and nothing else, and touches no root. */
  lemma ImportKeeps(pl: Platform, st: Stock, bundle: Bytes)
    requires Stocked(pl, st) && Imported(pl, st, bundle).Ok?
    ensures Stocked(pl, Imported(pl, st, bundle).value.0) && Decoded(pl, bundle).Ok?
    ensures
      var (c, next, ids) := (Decoded(pl, bundle).value, Imported(pl, st, bundle).value.0, Imported(pl, st, bundle).value.1);
      && (forall a :: a in next.assets <==> a in st.assets || a in c.assets)
      && (forall b :: b in next.blobs <==> b in st.blobs || b in c.blobs)
      && next.currentRoots == st.currentRoots && next.historyRoots == st.historyRoots && ids == Ids(c.assets)
  {
    hide ContentSound, Imported, Less, StrictBy, RootName;
    var next := Imported(pl, st, bundle).value.0;
    ImportContent(pl, st, bundle);
    ImportRoots(pl, st, bundle);
    forall id | Holds(st.assets, id)
      ensures Holds(next.assets, id)
    {
      var k :| 0 <= k < |st.assets| && st.assets[k].id == id;
      assert st.assets[k] in next.assets;
    }
    RootsCarry(st.assets, next.assets, st.currentRoots);
    HistoryCarry(st.assets, next.assets, st.historyRoots);
  }

  lemma ImportRoots(pl: Platform, st: Stock, bundle: Bytes)
    requires Imported(pl, st, bundle).Ok?
    ensures
      var next := Imported(pl, st, bundle).value.0;
      && next.currentRoots == st.currentRoots && next.historyRoots == st.historyRoots
      && Decoded(pl, bundle).Ok? && Imported(pl, st, bundle).value.1 == Ids(Decoded(pl, bundle).value.assets)
  {
    hide Decoded;
  }

  // Collecting keeps the catalog sound

  /** Exactly the rooted assets remain, and exactly the blobs they refer to. */
  lemma CollectedExact(st: Stock)
    ensures
      var next := Collected(st);
      && (forall a :: a in next.assets <==> a in st.assets && Rooted(st, a.id))
      && (forall b :: b in next.blobs <==> b in st.blobs && b.hash in Referenced(next.assets))
      && next.currentRoots == st.currentRoots && next.historyRoots == st.historyRoots
  {
    hide FilterBy, Rooted, Referenced;
    var next := Collected(st);
    FilterMembers(st.assets, (a: Asset) => Rooted(st, a.id));
    FilterMembers(st.blobs, (b: Blob) => b.hash in Referenced(next.assets));
  }

  lemma CollectComplete(st: Stock)
    requires Complete(st.assets, st.blobs)
    ensures Complete(Collected(st).assets, Collected(st).blobs)
  {
    hide Rooted, FilterBy, Collected;
    var next := Collected(st);
    CollectedExact(st);
    forall i | 0 <= i < |next.assets|
      ensures Provided(next.blobs, next.assets[i])
    {
      var a := next.assets[i];
      assert a in next.assets;
      var k :| 0 <= k < |st.assets| && st.assets[k] == a;
      assert Provided(st.blobs, st.assets[k]);
      var j :| 0 <= j < |st.blobs| && st.blobs[j].hash == a.manifest.contentHash && |st.blobs[j].bytes| == a.manifest.decodedLength;
      assert a.manifest.contentHash in Referenced(next.assets);
      assert st.blobs[j] in next.blobs;
      var m :| 0 <= m < |next.blobs| && next.blobs[m] == st.blobs[j];
    }
    forall h | h in Hashes(next.blobs)
      ensures h in Referenced(next.assets)
    {
      var j :| 0 <= j < |next.blobs| && next.blobs[j].hash == h;
      assert next.blobs[j] in next.blobs;
    }
  }

  lemma CollectContent(pl: Platform, st: Stock)
    requires ContentSound(pl, st.assets, st.blobs)
    ensures ContentSound(pl, Collected(st).assets, Collected(st).blobs)
  {
    hide AssetSound, BlobSound, Rooted, SumBy, StrictBy, Complete, FilterBy, Referenced;
    var next := Collected(st);
    CollectComplete(st);
    CollectedExact(st);
    var keepAsset, keepBlob := (a: Asset) => Rooted(st, a.id), (b: Blob) => b.hash in Referenced(next.assets);
    assert next.assets == FilterBy(st.assets, keepAsset) && next.blobs == FilterBy(st.blobs, keepBlob);
    FilterStrict(st.assets, keepAsset, AssetKey);
    FilterStrict(st.blobs, keepBlob, BlobKey);
    FilterSum(st.blobs, keepBlob, BlobSize);
    forall i | 0 <= i < |next.assets|
      ensures AssetSound(pl, next.assets[i])
    {
      assert next.assets[i] in next.assets && next.assets[i] in st.assets;
    }
    forall i | 0 <= i < |next.blobs|
      ensures BlobSound(pl, next.blobs[i]) && |next.blobs[i].bytes| <= BLOB_BYTE_LIMIT
    {
      assert next.blobs[i] in next.blobs && next.blobs[i] in st.blobs;
    }
  }

  lemma CollectKeeps(pl: Platform, st: Stock)
    requires Stocked(pl, st)
    ensures Stocked(pl, Collected(st))
  {
    hide ContentSound, Less, StrictBy, RootName, FilterBy, Collected;
    var next := Collected(st);
    CollectContent(pl, st);
    CollectedExact(st);
    forall id | Holds(st.assets, id) && Rooted(st, id)
      ensures Holds(next.assets, id)
    {
      var k :| 0 <= k < |st.assets| && st.assets[k].id == id;
      assert st.assets[k] in next.assets;
    }
    RootsCarry(st.assets, next.assets, st.currentRoots);
    HistoryCarry(st.assets, next.assets, st.historyRoots);
  }

  // Every command

  /** Every command keeps the catalog sound; a rejected one changes nothing, a committed one moves the revision by one. */
  lemma AppliedKeeps(pl: Platform, st: Stock, command: Command, expected: u64)
    requires Stocked(pl, st)
    ensures
      var (next, outcome) := Applied(pl, st, command, expected);
      && Stocked(pl, next)
      && outcome.revision == next.revision
      && (if outcome.committed then expected == st.revision && next.revision == st.revision + 1 else next == st)
  {
    hide ContentSound, HistorySound, RootsSound, RootName, Imported, Collected, CheckRoots, SortBy;
    if Executed(pl, st, command).Ok? {
      match command
      case Import(bundle) => ImportKeeps(pl, st, bundle);
      case SetCurrentRoots(ids) => CheckedRoots(st.assets, ids);
      case SetHistoryRoots(name, ids) =>
        CheckedRoots(st.assets, ids);
        HistoryPut(st.assets, st.historyRoots, name, CheckRoots(st.assets, ids).value);
      case RemoveHistoryRoots(name) => HistoryRemoved(st.assets, st.historyRoots, name);
      case Collect => CollectKeeps(pl, st);
    }
  }

  datatype Call = Call(command: Command, expected: u64)

  function Run(pl: Platform, calls: seq<Call>): Stock
    decreases |calls|
  {
    if calls == [] then EMPTY
    else Applied(pl, Run(pl, calls[..|calls| - 1]), calls[|calls| - 1].command, calls[|calls| - 1].expected).0
  }

  /** Every reachable catalog is sound. */
  lemma {:induction false} RunStocked(pl: Platform, calls: seq<Call>)
    ensures Stocked(pl, Run(pl, calls))
    decreases |calls|
  {
    hide Stocked, Applied;
    if calls == [] {
      EmptyStocked(pl);
    } else {
      RunStocked(pl, calls[..|calls| - 1]);
      AppliedKeeps(pl, Run(pl, calls[..|calls| - 1]), calls[|calls| - 1].command, calls[|calls| - 1].expected);
    }
  }

  // Exporting

  function Raw(b: Blob): Packed {
    Packed(b, 0, b.bytes)
  }

  function RawBlobs(blobs: seq<Blob>): (r: seq<Packed>)
    ensures |r| == |blobs| && forall i :: 0 <= i < |r| ==> r[i] == Raw(blobs[i])
  {
    seq(|blobs|, i requires 0 <= i < |blobs| => Raw(blobs[i]))
  }

  lemma StockedEntries(pl: Platform, st: Stock)
    requires ContentSound(pl, st.assets, st.blobs)
    ensures Sound(pl, st.assets, RawBlobs(st.blobs)) && Blobs(RawBlobs(st.blobs)) == st.blobs
  {
    hide AssetSound, SumBy, Less, HashText;
    var ps := RawBlobs(st.blobs);
    assert Blobs(ps) == st.blobs;
    StrictDistinct(st.assets, AssetKey);
    StrictDistinct(st.blobs, BlobKey);
    SizesAgree(ps);
    forall i | 0 <= i < |ps|
      ensures PackedSound(pl, ps[i])
    {
      assert BlobSound(pl, st.blobs[i]);
      UnpackExact(st.blobs[i].bytes, |st.blobs[i].bytes|, st.blobs[i].bytes);
    }
    forall i, j | 0 <= i < j < |ps|
      ensures PackedKey(ps[i]) != PackedKey(ps[j])
    {
      assert BlobKey(st.blobs[i]) != BlobKey(st.blobs[j]);
    }
  }

  function Exported(pl: Platform, st: Stock): Bytes
    requires Stocked(pl, st)
  {
    StockedEntries(pl, st);
    FitIsSound(pl, st.assets, RawBlobs(st.blobs));
    FitPrintables(pl, st.assets, RawBlobs(st.blobs));
    BundleBytes(st.assets, RawBlobs(st.blobs))
  }

  lemma {:induction false} SumBound<T>(list: seq<T>, weight: T -> nat, most: nat)
    requires forall i :: 0 <= i < |list| ==> weight(list[i]) <= most
    ensures SumBy(list, weight) <= |list| * most
  {
    if list != [] {
      SumBound(list[..|list| - 1], weight, most);
    }
  }

  lemma {:induction false} RawLength(pl: Platform, blobs: seq<Blob>)
    requires forall i :: 0 <= i < |blobs| ==> BlobSound(pl, blobs[i])
    ensures SumBy(RawBlobs(blobs), PackedLength) == 81 * |blobs| + Total(blobs)
  {
    hide HashText;
    if blobs != [] {
      var front, ps := blobs[..|blobs| - 1], RawBlobs(blobs);
      RawLength(pl, front);
      assert ps[..|ps| - 1] == RawBlobs(front);
      assert BlobSound(pl, blobs[|blobs| - 1]);
    }
  }

  /** The exported bundle never exceeds its limit. */
  lemma ExportFits(pl: Platform, st: Stock)
    requires Stocked(pl, st)
    ensures |Exported(pl, st)| <= 20 + 8 * 346 + 8 * 81 + DECODED_BYTE_LIMIT < BUNDLE_BYTE_LIMIT
  {
    hide BundleBytes, SumBy, AssetSound, ManifestBytes, BlobSound;
    var ps := RawBlobs(st.blobs);
    StockedEntries(pl, st);
    FitIsSound(pl, st.assets, ps);
    FitPrintables(pl, st.assets, ps);
    BundleSize(st.assets, ps);
    forall i | 0 <= i < |st.assets|
      ensures AssetLength(st.assets[i]) <= 346
    {
      SoundPrints(pl, st.assets[i]);
      ManifestReads(st.assets[i].manifest);
    }
    SumBound(st.assets, AssetLength, 346);
    RawLength(pl, st.blobs);
  }

  /** Importing it into an empty catalog gives the same assets and blobs. */
  lemma ExportDecodes(pl: Platform, st: Stock)
    requires Stocked(pl, st)
    ensures Decoded(pl, Exported(pl, st)) == Ok(Content(st.assets, st.blobs))
  {
    hide BundleBytes, AssetSound, BlobSound, HistorySound, RootsSound, Complete, CheckContent, EntriesFit, Sound, TakeEntries, SortBy, Less;
    var ps := RawBlobs(st.blobs);
    StockedEntries(pl, st);
    FitIsSound(pl, st.assets, ps);
    FitPrintables(pl, st.assets, ps);
    ExportFits(pl, st);
    EntriesRead(pl, st.assets, ps, []);
    assert BundleBytes(st.assets, ps) + [] == BundleBytes(st.assets, ps);
    StrictDistinct(st.blobs, BlobKey);
    CheckExact(st.assets, st.blobs);
    StrictStays(st.assets, AssetKey);
    StrictStays(st.blobs, BlobKey);
  }

  lemma {:induction false} AssetsIntoEmpty(assets: seq<Asset>, m: nat)
    requires m <= |assets| <= MANIFEST_LIMIT && DistinctBy(assets, AssetKey)
    ensures MergeAssets([], assets, m) == Ok(assets[..m])
  {
    if m > 0 {
      AssetsIntoEmpty(assets, m - 1);
      var front := assets[..m - 1];
      forall i | 0 <= i < |front|
        ensures AssetKey(front[i]) != assets[m - 1].id
      {
        assert AssetKey(assets[i]) != AssetKey(assets[m - 1]);
      }
      assert front + [assets[m - 1]] == assets[..m];
    }
  }

  lemma {:induction false} BlobsIntoEmpty(blobs: seq<Blob>, n: nat)
    requires n <= |blobs| <= BLOB_LIMIT && DistinctBy(blobs, BlobKey)
    ensures MergeBlobs([], blobs, n) == Ok(blobs[..n])
  {
    if n > 0 {
      BlobsIntoEmpty(blobs, n - 1);
      var front := blobs[..n - 1];
      forall i | 0 <= i < |front|
        ensures BlobKey(front[i]) != blobs[n - 1].hash
      {
        assert BlobKey(blobs[i]) != BlobKey(blobs[n - 1]);
      }
      assert front + [blobs[n - 1]] == blobs[..n];
    }
  }

  lemma ExportRoundTrip(pl: Platform, st: Stock)
    requires Stocked(pl, st)
    ensures
      var (next, outcome) := Applied(pl, EMPTY, Import(Exported(pl, st)), 0);
      && outcome.committed && outcome.imported == Ids(st.assets)
      && next == Stock(1, st.assets, st.blobs, [], [])
      && Stocked(pl, next) && Exported(pl, next) == Exported(pl, st)
  {
    hide Exported, Decoded, AssetSound, BlobSound, Complete, Less, SortBy, HistorySound;
    ExportDecodes(pl, st);
    StrictDistinct(st.assets, AssetKey);
    StrictDistinct(st.blobs, BlobKey);
    AssetsIntoEmpty(st.assets, |st.assets|);
    BlobsIntoEmpty(st.blobs, |st.blobs|);
    assert st.assets[..|st.assets|] == st.assets && st.blobs[..|st.blobs|] == st.blobs;
    StrictStays(st.assets, AssetKey);
    StrictStays(st.blobs, BlobKey);
    EmptyStocked(pl);
    AppliedKeeps(pl, EMPTY, Import(Exported(pl, st)), 0);
    var next := Applied(pl, EMPTY, Import(Exported(pl, st)), 0).0;
    ExportOfContent(pl, st, next);
  }

  lemma ExportOfContent(pl: Platform, st: Stock, next: Stock)
    requires Stocked(pl, st) && Stocked(pl, next) && next.assets == st.assets && next.blobs == st.blobs
    ensures Exported(pl, next) == Exported(pl, st)
  {
    hide BundleBytes, Stocked;
  }

  /** Every strict prefix and every strict extension of the exported bytes is rejected, with the state unchanged. */
  lemma DamagedRejected(pl: Platform, st: Stock, target: Stock, expected: u64, bundle: Bytes)
    requires Stocked(pl, st) && (bundle < Exported(pl, st) || Exported(pl, st) < bundle)
    ensures !Applied(pl, target, Import(bundle), expected).1.committed && Applied(pl, target, Import(bundle), expected).0 == target
  {
    hide Exported, Decoded, Stocked, MergeAssets, MergeBlobs, WithinQuota;
    ExportDecodes(pl, st);
    var b := Exported(pl, st);
    if bundle < b {
      PrefixFree(pl, bundle, b[|bundle|..]);
      assert bundle + b[|bundle|..] == b;
    } else {
      PrefixFree(pl, b, bundle[|b|..]);
      assert b + bundle[|b|..] == bundle;
    }
  }

  /** The order of the entries, and the codec of each blob, do not matter, as long as the bytes fit a bundle. */
  lemma ReorderedImport(pl: Platform, st: Stock, expected: u64, assets: seq<Asset>, ps: seq<Packed>, assets': seq<Asset>, ps': seq<Packed>)
    requires Printables(assets) && EntriesFit(pl, assets, ps) && Decoded(pl, BundleBytes(assets, ps)).Ok?
    requires multiset(assets) == multiset(assets') && SameBlobs(ps, ps')
    ensures Printables(assets')
    ensures |BundleBytes(assets', ps')| <= BUNDLE_BYTE_LIMIT ==>
      Applied(pl, st, Import(BundleBytes(assets', ps')), expected) == Applied(pl, st, Import(BundleBytes(assets, ps)), expected)
  {
    hide BundleBytes, Decoded, EntriesFit, MergeAssets, MergeBlobs, WithinQuota;
    RepackedSame(pl, assets, ps, assets', ps');
  }
}
