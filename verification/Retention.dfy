/** Explaining retention without changing anything: what each root keeps, and what collecting would remove. */
module Retention {
  import opened Prelude
  import opened Texts
  import opened Commands
  import opened Keyed
  import opened Manifests
  import opened Bundles
  import opened Reorder
  import opened Catalogs

  datatype AssetRow = AssetRow(id: Text, contentHash: Text, currentRoot: bool, historyRoots: seq<Text>)
  datatype BlobRow = BlobRow(hash: Text, referencing: seq<Text>, retaining: seq<Text>)

  datatype Report = Report(currentRoots: seq<Text>, historyRoots: seq<HistoryRoots>, assets: seq<AssetRow>, blobs: seq<BlobRow>,
                           removableAssets: seq<Text>, removableBlobs: seq<Text>)

  /** Every list of roots can be searched by halving. */
  predicate RootsSorted(st: Stock) {
    Sorted(st.currentRoots) && forall k :: 0 <= k < |st.historyRoots| ==> Sorted(st.historyRoots[k].ids)
  }

  lemma StrictSorted(ids: seq<Text>)
    requires forall i, j :: 0 <= i < j < |ids| ==> Less(ids[i], ids[j])
    ensures Sorted(ids)
  {
    forall i, j | 0 <= i < j < |ids|
      ensures !Less(ids[j], ids[i])
    {
      if Less(ids[j], ids[i]) {
        LessTransitive(ids[i], ids[j], ids[i]);
        LessIrreflexive(ids[i]);
      }
    }
  }

  lemma StockedSorted(pl: Platform, st: Stock)
    requires Stocked(pl, st)
    ensures RootsSorted(st)
  {
    hide ContentSound, Less, RootName, StrictBy;
    StrictSorted(st.currentRoots);
    forall k | 0 <= k < |st.historyRoots|
      ensures Sorted(st.historyRoots[k].ids)
    {
      assert RootsSound(st.assets, st.historyRoots[k].ids);
      StrictSorted(st.historyRoots[k].ids);
    }
  }

  /** The names of the first `n` history sets that keep an asset. */
  function Keepers(st: Stock, id: Text, n: nat): seq<Text>
    requires n <= |st.historyRoots| && RootsSorted(st)
  {
    if n == 0 then []
    else Keepers(st, id, n - 1) + if Contains(st.historyRoots[n - 1].ids, id) then [st.historyRoots[n - 1].name] else []
  }

  function AssetRowOf(st: Stock, a: Asset): AssetRow
    requires RootsSorted(st)
  {
    AssetRow(a.id, a.manifest.contentHash, Contains(st.currentRoots, a.id), Keepers(st, a.id, |st.historyRoots|))
  }

  predicate Unkept(row: AssetRow) {
    !row.currentRoot && row.historyRoots == []
  }

  function AssetRows(st: Stock, n: nat): (rows: seq<AssetRow>)
    requires n <= |st.assets| && RootsSorted(st)
    ensures |rows| == n && forall i :: 0 <= i < n ==> rows[i] == AssetRowOf(st, st.assets[i])
  {
    if n == 0 then [] else AssetRows(st, n - 1) + [AssetRowOf(st, st.assets[n - 1])]
  }

  function UnkeptIds(rows: seq<AssetRow>, n: nat): seq<Text>
    requires n <= |rows|
  {
    if n == 0 then [] else UnkeptIds(rows, n - 1) + if Unkept(rows[n - 1]) then [rows[n - 1].id] else []
  }

  /** The assets among the first `n` that refer to a blob; with `kept`, only those some root keeps. */
  function Referring(rows: seq<AssetRow>, hash: Text, kept: bool, n: nat): seq<Text>
    requires n <= |rows|
  {
    if n == 0 then []
    else Referring(rows, hash, kept, n - 1)
         + if rows[n - 1].contentHash == hash && (kept ==> !Unkept(rows[n - 1])) then [rows[n - 1].id] else []
  }

  function BlobRowOf(rows: seq<AssetRow>, b: Blob): BlobRow {
    BlobRow(b.hash, Referring(rows, b.hash, false, |rows|), Referring(rows, b.hash, true, |rows|))
  }

  function BlobRows(rows: seq<AssetRow>, blobs: seq<Blob>, n: nat): (r: seq<BlobRow>)
    requires n <= |blobs|
    ensures |r| == n && forall i :: 0 <= i < n ==> r[i] == BlobRowOf(rows, blobs[i])
  {
    if n == 0 then [] else BlobRows(rows, blobs, n - 1) + [BlobRowOf(rows, blobs[n - 1])]
  }

  function LooseHashes(rows: seq<BlobRow>, n: nat): seq<Text>
    requires n <= |rows|
  {
    if n == 0 then [] else LooseHashes(rows, n - 1) + if rows[n - 1].retaining == [] then [rows[n - 1].hash] else []
  }

  function ReportOf(st: Stock): Report
    requires RootsSorted(st)
  {
    var assets := AssetRows(st, |st.assets|);
    var blobs := BlobRows(assets, st.blobs, |st.blobs|);
    Report(st.currentRoots, st.historyRoots, assets, blobs, UnkeptIds(assets, |assets|), LooseHashes(blobs, |blobs|))
  }

  function Inspected(st: Stock, expected: u64): Result<Report, string>
    requires RootsSorted(st)
  {
    if expected != st.revision then Err("REVISION_CONFLICT") else Ok(ReportOf(st))
  }

  // The report predicts the collector

  lemma {:induction false} KeepersExact(st: Stock, id: Text, n: nat)
    requires n <= |st.historyRoots| && RootsSorted(st)
    ensures Keepers(st, id, n) != [] <==> exists k :: 0 <= k < n && id in st.historyRoots[k].ids
  {
    if n > 0 {
      KeepersExact(st, id, n - 1);
    }
  }

  lemma RowExact(st: Stock, a: Asset)
    requires RootsSorted(st)
    ensures Unkept(AssetRowOf(st, a)) <==> !Rooted(st, a.id)
    ensures AssetRowOf(st, a).id == a.id
  {
    KeepersExact(st, a.id, |st.historyRoots|);
  }

  lemma {:induction false} UnkeptExact(st: Stock, rows: seq<AssetRow>, drop: Asset -> bool, n: nat)
    requires n <= |st.assets| == |rows|
    requires forall i :: 0 <= i < |st.assets| ==> rows[i].id == st.assets[i].id && (Unkept(rows[i]) <==> drop(st.assets[i]))
    ensures UnkeptIds(rows, n) == Ids(FilterBy(st.assets[..n], drop))
  {
    hide Unkept;
    if n == 0 {
      assert st.assets[..0] == [];
    } else {
      UnkeptExact(st, rows, drop, n - 1);
      hide FilterBy, Ids;
      var front, last := st.assets[..n - 1], st.assets[n - 1];
      FilterAppend(front, last, drop);
      IdsAppend(FilterBy(front, drop), last);
      assert st.assets[..n] == front + [last];
      assert FilterBy(front, drop) + [] == FilterBy(front, drop);
      assert UnkeptIds(rows, n) == UnkeptIds(rows, n - 1) + if drop(last) then [last.id] else [];
    }
  }

  lemma {:induction false} ReferringExact(st: Stock, hash: Text, n: nat)
    requires n <= |st.assets| && RootsSorted(st)
    ensures Referring(AssetRows(st, |st.assets|), hash, true, n) != [] <==>
      exists k :: 0 <= k < n && st.assets[k].manifest.contentHash == hash && Rooted(st, st.assets[k].id)
  {
    hide Rooted, RootsSorted, Keepers;
    if n > 0 {
      ReferringExact(st, hash, n - 1);
      RowExact(st, st.assets[n - 1]);
    }
  }

  lemma {:induction false} LooseExact(st: Stock, b: Blob)
    requires RootsSorted(st)
    ensures BlobRowOf(AssetRows(st, |st.assets|), b).retaining == [] <==> b.hash !in Referenced(Collected(st).assets)
  {
    hide Rooted, RootsSorted, Collected;
    ReferringExact(st, b.hash, |st.assets|);
    CollectedExact(st);
    var next := Collected(st);
    if b.hash in Referenced(next.assets) {
      var i :| 0 <= i < |next.assets| && next.assets[i].manifest.contentHash == b.hash;
      assert next.assets[i] in next.assets && next.assets[i] in st.assets;
      var k :| 0 <= k < |st.assets| && st.assets[k] == next.assets[i];
    }
    if k :| 0 <= k < |st.assets| && st.assets[k].manifest.contentHash == b.hash && Rooted(st, st.assets[k].id) {
      assert st.assets[k] in st.assets && st.assets[k] in next.assets;
      var i :| 0 <= i < |next.assets| && next.assets[i] == st.assets[k];
    }
  }

  function HashesOf(blobs: seq<Blob>): (r: seq<Text>)
    ensures |r| == |blobs|
  {
    seq(|blobs|, i requires 0 <= i < |blobs| => blobs[i].hash)
  }

  lemma {:induction false} LooseHashesExact(st: Stock, rows: seq<BlobRow>, drop: Blob -> bool, n: nat)
    requires n <= |st.blobs| == |rows|
    requires forall i :: 0 <= i < |st.blobs| ==> rows[i].hash == st.blobs[i].hash && (rows[i].retaining == [] <==> drop(st.blobs[i]))
    ensures LooseHashes(rows, n) == HashesOf(FilterBy(st.blobs[..n], drop))
  {
    if n == 0 {
      assert st.blobs[..0] == [];
    } else {
      LooseHashesExact(st, rows, drop, n - 1);
      hide FilterBy, HashesOf;
      var front, last := st.blobs[..n - 1], st.blobs[n - 1];
      FilterAppend(front, last, drop);
      HashesAppend(FilterBy(front, drop), last);
      assert st.blobs[..n] == front + [last];
      assert FilterBy(front, drop) + [] == FilterBy(front, drop);
      assert LooseHashes(rows, n) == LooseHashes(rows, n - 1) + if drop(last) then [last.hash] else [];
    }
  }

  lemma HashesAppend(blobs: seq<Blob>, b: Blob)
    ensures HashesOf(blobs + [b]) == HashesOf(blobs) + [b.hash]
  {
  }

  lemma IdsAppend(assets: seq<Asset>, a: Asset)
    ensures Ids(assets + [a]) == Ids(assets) + [a.id]
  {
  }

  lemma {:induction false} FilterAppend<T(!new)>(list: seq<T>, x: T, keep: T -> bool)
    ensures FilterBy(list + [x], keep) == FilterBy(list, keep) + if keep(x) then [x] else []
  {
    assert (list + [x])[..|list|] == list;
  }

  /** The reported removable assets and blobs are precisely those the collector removes, in their order,
      and as many as its receipt will say. */
  lemma InspectPredicts(pl: Platform, st: Stock)
    requires Stocked(pl, st) && st.revision < U64_MAX
    ensures RootsSorted(st)
    ensures
      var report := ReportOf(st);
      var (next, outcome) := Applied(pl, st, Collect, st.revision);
      && outcome.committed
      && report.removableAssets == Ids(FilterBy(st.assets, (a: Asset) => a !in next.assets))
      && report.removableBlobs == HashesOf(FilterBy(st.blobs, (b: Blob) => b !in next.blobs))
      && outcome.manifestsRemoved == |report.removableAssets| && outcome.blobsRemoved == |report.removableBlobs|
  {
    hide Rooted, RootsSorted, Collected, AssetRows, BlobRows, UnkeptIds, LooseHashes, Stocked, Referenced, FilterBy;
    StockedSorted(pl, st);
    AssetsPredicted(st);
    BlobsPredicted(st);
    CollectedParts(st);
  }

  lemma AssetsPredicted(st: Stock)
    requires RootsSorted(st)
    ensures
      var next := Collected(st);
      ReportOf(st).removableAssets == Ids(FilterBy(st.assets, (a: Asset) => a !in next.assets))
  {
    hide Rooted, RootsSorted, Collected, UnkeptIds, LooseHashes, FilterBy, AssetRowOf, Unkept;
    CollectedExact(st);
    var next, rows := Collected(st), AssetRows(st, |st.assets|);
    forall i | 0 <= i < |st.assets|
      ensures rows[i].id == st.assets[i].id && (Unkept(rows[i]) <==> st.assets[i] !in next.assets)
    {
      RowExact(st, st.assets[i]);
    }
    UnkeptExact(st, rows, (a: Asset) => a !in next.assets, |st.assets|);
    assert st.assets[..|st.assets|] == st.assets;
  }

  lemma BlobsPredicted(st: Stock)
    requires RootsSorted(st)
    ensures
      var next := Collected(st);
      ReportOf(st).removableBlobs == HashesOf(FilterBy(st.blobs, (b: Blob) => b !in next.blobs))
  {
    hide Rooted, RootsSorted, Collected, AssetRows, UnkeptIds, LooseHashes, FilterBy, Referenced, Referring;
    CollectedExact(st);
    var next, assets := Collected(st), AssetRows(st, |st.assets|);
    var rows := BlobRows(assets, st.blobs, |st.blobs|);
    forall i | 0 <= i < |st.blobs|
      ensures rows[i].hash == st.blobs[i].hash && (rows[i].retaining == [] <==> st.blobs[i] !in next.blobs)
    {
      LooseExact(st, st.blobs[i]);
    }
    LooseHashesExact(st, rows, (b: Blob) => b !in next.blobs, |st.blobs|);
    assert st.blobs[..|st.blobs|] == st.blobs;
  }

  lemma {:induction false} SameFilter<T(!new)>(list: seq<T>, f: T -> bool, g: T -> bool)
    requires forall x :: x in list ==> f(x) == g(x)
    ensures FilterBy(list, f) == FilterBy(list, g)
  {
    if list != [] {
      var front, last := list[..|list| - 1], list[|list| - 1];
      assert list == front + [last];
      assert forall x :: x in front ==> x in list;
      SameFilter(front, f, g);
    }
  }

  lemma CollectedParts(st: Stock)
    ensures
      var next := Collected(st);
      && |next.assets| + |FilterBy(st.assets, (a: Asset) => a !in next.assets)| == |st.assets|
      && |next.blobs| + |FilterBy(st.blobs, (b: Blob) => b !in next.blobs)| == |st.blobs|
  {
    hide Rooted, Referenced, FilterBy;
    CollectedExact(st);
    var next := Collected(st);
    FilterSplits(st.assets, (a: Asset) => Rooted(st, a.id), (a: Asset) => a !in next.assets);
    FilterSplits(st.blobs, (b: Blob) => b.hash in Referenced(next.assets), (b: Blob) => b !in next.blobs);
  }

  /** Collecting again removes nothing. */
  lemma CollectOnce(st: Stock)
    ensures Collected(Collected(st)) == Collected(st)
  {
    hide Referenced, FilterBy;
    var next := Collected(st);
    CollectedExact(st);
    assert forall id :: Rooted(next, id) == Rooted(st, id);
    FilterAll(next.assets, (a: Asset) => Rooted(next, a.id));
    FilterAll(next.blobs, (b: Blob) => b.hash in Referenced(next.assets));
  }

  // What the report says

  lemma {:induction false} KeepersNamed(st: Stock, id: Text, n: nat, name: Text)
    requires n <= |st.historyRoots| && RootsSorted(st)
    ensures name in Keepers(st, id, n) <==> exists k :: 0 <= k < n && st.historyRoots[k].name == name && id in st.historyRoots[k].ids
  {
    if n > 0 {
      KeepersNamed(st, id, n - 1, name);
    }
  }

  lemma {:induction false} ReferringNamed(rows: seq<AssetRow>, hash: Text, kept: bool, n: nat, id: Text)
    requires n <= |rows|
    ensures id in Referring(rows, hash, kept, n) <==>
      exists k :: 0 <= k < n && rows[k].id == id && rows[k].contentHash == hash && (kept ==> !Unkept(rows[k]))
  {
    hide Unkept;
    if n > 0 {
      ReferringNamed(rows, hash, kept, n - 1, id);
    }
  }

  /** The report has a row for every asset, which says whether it is a current root and which history sets name it, and a row
      for every blob, which names the assets that refer to it and, of these, the ones some root keeps. */
  lemma ReportMeans(pl: Platform, st: Stock, name: Text, id: Text)
    requires Stocked(pl, st)
    ensures RootsSorted(st)
    ensures
      var r := ReportOf(st);
      && r.currentRoots == st.currentRoots && r.historyRoots == st.historyRoots
      && |r.assets| == |st.assets| && |r.blobs| == |st.blobs|
      && (forall i :: 0 <= i < |st.assets| ==>
            var (row, a) := (r.assets[i], st.assets[i]);
            && row.id == a.id && row.contentHash == a.manifest.contentHash
            && (row.currentRoot <==> a.id in st.currentRoots)
            && (name in row.historyRoots <==>
                  exists k :: 0 <= k < |st.historyRoots| && st.historyRoots[k].name == name && a.id in st.historyRoots[k].ids))
      && (forall i :: 0 <= i < |st.blobs| ==>
            var (row, b) := (r.blobs[i], st.blobs[i]);
            && row.hash == b.hash
            && (id in row.referencing <==> Refers(st, b.hash, id, false))
            && (id in row.retaining <==> Refers(st, b.hash, id, true)))
  {
    hide RootsSorted, Stocked, Keepers, Referring, Rooted;
    StockedSorted(pl, st);
    var rows := AssetRows(st, |st.assets|);
    forall i | 0 <= i < |st.assets|
      ensures rows[i] == AssetRowOf(st, st.assets[i]) && (rows[i].currentRoot <==> st.assets[i].id in st.currentRoots)
      ensures name in rows[i].historyRoots <==>
        exists k :: 0 <= k < |st.historyRoots| && st.historyRoots[k].name == name && st.assets[i].id in st.historyRoots[k].ids
    {
      RowSays(st, st.assets[i], name);
    }
    forall i | 0 <= i < |st.blobs|
      ensures id in BlobRowOf(rows, st.blobs[i]).referencing <==> Refers(st, st.blobs[i].hash, id, false)
      ensures id in BlobRowOf(rows, st.blobs[i]).retaining <==> Refers(st, st.blobs[i].hash, id, true)
    {
      BlobSays(st, st.blobs[i].hash, id, false);
      BlobSays(st, st.blobs[i].hash, id, true);
    }
  }

  /** An asset of this identity refers to the blob, and some root keeps it. */
  predicate Refers(st: Stock, hash: Text, id: Text, kept: bool) {
    exists k :: 0 <= k < |st.assets| && st.assets[k].id == id && st.assets[k].manifest.contentHash == hash && (kept ==> Rooted(st, id))
  }

  lemma RowSays(st: Stock, a: Asset, name: Text)
    requires RootsSorted(st)
    ensures AssetRowOf(st, a).currentRoot <==> a.id in st.currentRoots
    ensures name in AssetRowOf(st, a).historyRoots <==>
      exists k :: 0 <= k < |st.historyRoots| && st.historyRoots[k].name == name && a.id in st.historyRoots[k].ids
  {
    KeepersNamed(st, a.id, |st.historyRoots|, name);
  }

  lemma {:induction false} BlobSays(st: Stock, hash: Text, id: Text, kept: bool)
    requires RootsSorted(st)
    ensures id in Referring(AssetRows(st, |st.assets|), hash, kept, |st.assets|) <==> Refers(st, hash, id, kept)
  {
    hide Rooted, RootsSorted, Keepers, Unkept;
    var rows := AssetRows(st, |st.assets|);
    ReferringNamed(rows, hash, kept, |st.assets|, id);
    forall k | 0 <= k < |st.assets|
      ensures rows[k].id == st.assets[k].id && rows[k].contentHash == st.assets[k].manifest.contentHash
      ensures Unkept(rows[k]) <==> !Rooted(st, st.assets[k].id)
    {
      RowExact(st, st.assets[k]);
    }
  }
}
