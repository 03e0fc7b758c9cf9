/** What each command of the catalog does, and when it commits. */
module CatalogEffects {
  import opened Prelude
  import opened Texts
  import opened Commands
  import opened Keyed
  import opened Manifests
  import opened Bundles
  import opened Reorder
  import opened Catalogs
  import opened Retention

  predicate Current(st: Stock, expected: u64) {
    expected == st.revision && st.revision != U64_MAX
  }

  // Roots

  /** What a caller may name as roots: a few different assets, all of them held. */
  predicate Acceptable(assets: seq<Asset>, ids: seq<Text>) {
    && |ids| <= ROOTS_LIMIT
    && (forall i :: 0 <= i < |ids| ==> Holds(assets, ids[i]))
    && AllDifferent(ids)
  }

  predicate AllDifferent(list: seq<Text>) {
    forall i, j :: 0 <= i < j < |list| ==> list[i] != list[j]
  }

  lemma {:induction false} HeldFound(pl: Platform, assets: seq<Asset>, id: Text)
    requires forall k :: 0 <= k < |assets| ==> AssetSound(pl, assets[k])
    ensures Holds(assets, id) <==> FindBy(assets, AssetKey, id) != |assets|
    ensures Holds(assets, id) ==> ValidHash(id)
  {
    hide ValidManifest;
    if Holds(assets, id) {
      var k :| 0 <= k < |assets| && assets[k].id == id;
      assert AssetKey(assets[k]) == id && AssetSound(pl, assets[k]);
    }
    if FindBy(assets, AssetKey, id) < |assets| {
      assert assets[FindBy(assets, AssetKey, id)].id == id;
    }
  }

  lemma {:induction false} RefusalExact(pl: Platform, assets: seq<Asset>, ids: seq<Text>, n: nat)
    requires n <= |ids| && forall k :: 0 <= k < |assets| ==> AssetSound(pl, assets[k])
    ensures RootsRefusal(assets, ids, n).None? <==> forall i :: 0 <= i < n ==> Holds(assets, ids[i])
  {
    hide Holds, ValidHash, AssetSound;
    if n > 0 {
      RefusalExact(pl, assets, ids, n - 1);
      HeldFound(pl, assets, ids[n - 1]);
    }
  }

  lemma {:induction false} OnceEach(ids: seq<Text>, x: Text)
    requires AllDifferent(ids)
    ensures multiset(ids)[x] <= 1
  {
    if ids != [] {
      assert ids == ids[..|ids| - 1] + [ids[|ids| - 1]];
      OnceEach(ids[..|ids| - 1], x);
      if x == ids[|ids| - 1] {
        assert x !in ids[..|ids| - 1];
        assert x !in multiset(ids[..|ids| - 1]);
      }
    }
  }

  lemma TwiceCounted(ids: seq<Text>, i: nat, j: nat)
    requires i < j < |ids| && ids[i] == ids[j]
    ensures multiset(ids)[ids[i]] >= 2
  {
    assert ids == ids[..i] + [ids[i]] + ids[i + 1..j] + [ids[j]] + ids[j + 1..];
  }

  lemma SameDifferent(a: seq<Text>, b: seq<Text>)
    requires multiset(a) == multiset(b) && AllDifferent(a)
    ensures AllDifferent(b)
  {
    forall i, j | 0 <= i < j < |b|
      ensures b[i] != b[j]
    {
      OnceEach(a, b[i]);
      if b[i] == b[j] {
        TwiceCounted(b, i, j);
      }
    }
  }

  /** Sorting brings equal roots together, so looking at neighbours finds every repetition. */
  lemma {:induction false} NeighboursExact(ids: seq<Text>)
    ensures AdjacentEqual(Sort(ids)) <==> !AllDifferent(ids)
  {
    hide Less, AllDifferent;
    var r := Sort(ids);
    SortSorted(ids);
    if AllDifferent(ids) {
      SameDifferent(ids, r);
      DifferentNeighbours(r);
    } else if !AdjacentEqual(r) {
      StrictlyDistinct(r);
      SameDifferent(r, ids);
    }
  }

  lemma DifferentNeighbours(list: seq<Text>)
    requires AllDifferent(list)
    ensures !AdjacentEqual(list)
  {
  }

  lemma StrictlyDistinct(list: seq<Text>)
    requires Sorted(list) && !AdjacentEqual(list)
    ensures AllDifferent(list)
  {
    hide Less;
    forall i, j | 0 <= i < j < |list|
      ensures list[i] != list[j]
    {
      NoneBetween(list, i, j);
      LessIrreflexive(list[i]);
    }
  }

  lemma CheckExact(pl: Platform, st: Stock, ids: seq<Text>)
    requires Stocked(pl, st)
    ensures CheckRoots(st.assets, ids).Ok? <==> Acceptable(st.assets, ids)
    ensures CheckRoots(st.assets, ids).Ok? ==> multiset(CheckRoots(st.assets, ids).value) == multiset(ids)
  {
    hide RootsSound, HistorySound, AssetSound, AdjacentEqual, AllDifferent, Holds, StrictBy, WithinQuota, Complete, BlobSound;
    RefusalExact(pl, st.assets, ids, |ids|);
    NeighboursExact(ids);
    if CheckRoots(st.assets, ids).Ok? {
      CheckedRoots(st.assets, ids);
    }
  }

  /** Setting the current roots: accepted exactly when they may be named; afterwards they are the roots, and nothing else
      has changed. */
  lemma SetCurrentExact(pl: Platform, st: Stock, ids: seq<Text>, expected: u64)
    requires Stocked(pl, st)
    ensures
      var (next, outcome) := Applied(pl, st, SetCurrentRoots(ids), expected);
      && (outcome.committed <==> Current(st, expected) && Acceptable(st.assets, ids))
      && (outcome.committed ==>
            && multiset(next.currentRoots) == multiset(ids)
            && next == st.(revision := next.revision, currentRoots := next.currentRoots)
            && outcome == Outcome(true, next.revision, "", [], 0, 0))
  {
    hide Stocked, CheckRoots, Acceptable;
    CheckExact(pl, st, ids);
  }

  /** The roots kept under a name. */
  function HistoryOf(st: Stock, name: Text): Option<seq<Text>> {
    var at := FindBy(st.historyRoots, NameKey, name);
    if at == |st.historyRoots| then None else Some(st.historyRoots[at].ids)
  }

  /** With distinct names an entry is found by its name. */
  lemma HistoryFound(st: Stock, k: nat)
    requires k < |st.historyRoots| && DistinctBy(st.historyRoots, NameKey)
    ensures HistoryOf(st, st.historyRoots[k].name) == Some(st.historyRoots[k].ids)
  {
    var at := FindBy(st.historyRoots, NameKey, st.historyRoots[k].name);
    assert NameKey(st.historyRoots[k]) == st.historyRoots[k].name;
    assert forall i :: 0 <= i < k ==> NameKey(st.historyRoots[i]) != st.historyRoots[k].name;
  }

  /** The entries decide what is kept under every name. */
  lemma HistoryMembers(st: Stock, next: Stock, name: Text)
    requires DistinctBy(st.historyRoots, NameKey) && DistinctBy(next.historyRoots, NameKey)
    requires forall h: HistoryRoots :: h.name == name ==> (h in next.historyRoots <==> h in st.historyRoots)
    ensures HistoryOf(next, name) == HistoryOf(st, name)
  {
    hide FindBy;
    HistoryIn(st, name);
    HistoryIn(next, name);
  }

  lemma HistoryIn(st: Stock, name: Text)
    requires DistinctBy(st.historyRoots, NameKey)
    ensures HistoryOf(st, name).Some? ==> HistoryRoots(name, HistoryOf(st, name).value) in st.historyRoots
    ensures forall h: HistoryRoots :: h in st.historyRoots && h.name == name ==> HistoryOf(st, name) == Some(h.ids)
  {
    var at := FindBy(st.historyRoots, NameKey, name);
    if at < |st.historyRoots| {
      assert st.historyRoots[at] == HistoryRoots(name, st.historyRoots[at].ids);
    }
    forall h: HistoryRoots | h in st.historyRoots && h.name == name
      ensures HistoryOf(st, name) == Some(h.ids)
    {
      var k :| 0 <= k < |st.historyRoots| && st.historyRoots[k] == h;
      HistoryFound(st, k);
    }
  }

  lemma StockedDistinct(pl: Platform, st: Stock)
    requires Stocked(pl, st)
    ensures DistinctBy(st.historyRoots, NameKey) && |st.historyRoots| <= HISTORY_LIMIT
  {
    hide ContentSound, Less, RootsSound;
    StrictDistinct(st.historyRoots, NameKey);
  }

  /** The list that is sorted into place. */
  function Put(history: seq<HistoryRoots>, name: Text, ids: seq<Text>): seq<HistoryRoots> {
    var at := FindBy(history, NameKey, name);
    if at < |history| then history[at := HistoryRoots(name, ids)] else history + [HistoryRoots(name, ids)]
  }

  lemma PutMembers(history: seq<HistoryRoots>, name: Text, ids: seq<Text>, h: HistoryRoots)
    requires DistinctBy(history, NameKey)
    ensures h in Put(history, name, ids) <==> if h.name == name then h == HistoryRoots(name, ids) else h in history
  {
    var at, list := FindBy(history, NameKey, name), Put(history, name, ids);
    forall k | 0 <= k < |history| && k != at
      ensures history[k].name != name && list[k] == history[k]
    {
      assert NameKey(history[k]) != name by {
        if at < k {
          assert NameKey(history[at]) != NameKey(history[k]);
        }
      }
    }
    if h in history && h.name != name {
      var k :| 0 <= k < |history| && history[k] == h;
      assert k != at && list[k] == h;
    }
    assert list[at] == HistoryRoots(name, ids);
    if h in list {
      var k :| 0 <= k < |list| && list[k] == h;
    }
  }

  /** Setting roots under a name: afterwards exactly these are kept under it, and every other name keeps its own. */
  lemma SetHistoryExact(pl: Platform, st: Stock, name: Text, ids: seq<Text>, expected: u64, other: Text)
    requires Stocked(pl, st)
    ensures
      var (next, outcome) := Applied(pl, st, SetHistoryRoots(name, ids), expected);
      && (outcome.committed <==>
            && Current(st, expected) && RootName(name) && Acceptable(st.assets, ids)
            && (HistoryOf(st, name).Some? || |st.historyRoots| < HISTORY_LIMIT))
      && (outcome.committed ==>
            && HistoryOf(next, name).Some? && multiset(HistoryOf(next, name).value) == multiset(ids)
            && (other != name ==> HistoryOf(next, other) == HistoryOf(st, other))
            && |next.historyRoots| == |st.historyRoots| + (if HistoryOf(st, name).None? then 1 else 0)
            && next == st.(revision := next.revision, historyRoots := next.historyRoots)
            && outcome == Outcome(true, next.revision, "", [], 0, 0))
  {
    hide Stocked, CheckRoots, Acceptable, RootName, FindBy, SortBy, DistinctBy;
    CheckExact(pl, st, ids);
    StockedDistinct(pl, st);
    var (next, outcome) := Applied(pl, st, SetHistoryRoots(name, ids), expected);
    AppliedKeeps(pl, st, SetHistoryRoots(name, ids), expected);
    if outcome.committed {
      StockedDistinct(pl, next);
      var roots := CheckRoots(st.assets, ids).value;
      assert next.historyRoots == SortBy(Put(st.historyRoots, name, roots), NameKey);
      SameMembers(next.historyRoots, Put(st.historyRoots, name, roots));
      PutMembers(st.historyRoots, name, roots, HistoryRoots(name, roots));
      HistoryIn(next, name);
      if other != name {
        forall h: HistoryRoots | h.name == other
          ensures h in next.historyRoots <==> h in st.historyRoots
        {
          PutMembers(st.historyRoots, name, roots, h);
        }
        HistoryMembers(st, next, other);
      }
    }
  }

  /** Removing a name: afterwards nothing is kept under it, and every other name keeps its own. */
  lemma RemoveHistoryExact(pl: Platform, st: Stock, name: Text, expected: u64, other: Text)
    requires Stocked(pl, st)
    ensures
      var (next, outcome) := Applied(pl, st, RemoveHistoryRoots(name), expected);
      && (outcome.committed <==> Current(st, expected) && RootName(name))
      && (outcome.committed ==>
            && HistoryOf(next, name) == None
            && (other != name ==> HistoryOf(next, other) == HistoryOf(st, other))
            && next == st.(revision := next.revision, historyRoots := next.historyRoots)
            && outcome == Outcome(true, next.revision, "", [], 0, 0))
  {
    hide Stocked, RootName, FindBy, DistinctBy, FilterBy;
    StockedDistinct(pl, st);
    var (next, outcome) := Applied(pl, st, RemoveHistoryRoots(name), expected);
    AppliedKeeps(pl, st, RemoveHistoryRoots(name), expected);
    if outcome.committed {
      StockedDistinct(pl, next);
      FilterMembers(st.historyRoots, (h: HistoryRoots) => h.name != name);
      HistoryIn(next, name);
      if other != name {
        HistoryMembers(st, next, other);
      }
    }
  }

  // Importing

  /** Whatever is held under the key of something incoming is that very thing. */
  predicate NoClash<T(==)>(held: seq<T>, incoming: seq<T>, key: T -> Text) {
    forall i, j :: 0 <= i < |held| && 0 <= j < |incoming| && key(held[i]) == key(incoming[j]) ==> held[i] == incoming[j]
  }

  /** Everything held, and after it what is new. */
  ghost function Joined<T(!new)>(held: seq<T>, incoming: seq<T>): seq<T> {
    held + FilterBy(incoming, (x: T) => x !in held)
  }

  lemma JoinedMore<T(!new)>(held: seq<T>, incoming: seq<T>, n: nat)
    requires n < |incoming|
    ensures Joined(held, incoming[..n + 1]) == Joined(held, incoming[..n]) + if incoming[n] in held then [] else [incoming[n]]
  {
    assert incoming[..n + 1] == incoming[..n] + [incoming[n]];
    FilterAppend(incoming[..n], incoming[n], (x: T) => x !in held);
  }

  lemma JoinedIn<T(!new)>(held: seq<T>, incoming: seq<T>, x: T)
    ensures x in Joined(held, incoming) <==> x in held || x in incoming
  {
    FilterMembers(incoming, (y: T) => y !in held);
  }

  lemma NothingJoined<T(!new)>(held: seq<T>)
    ensures Joined(held, []) == held
  {
  }

  /** Looking for the key of the next one among those joined so far decides whether it is new, held or in the way. */
  lemma NextJoined<T(!new)>(held: seq<T>, incoming: seq<T>, n: nat, key: T -> Text)
    requires n < |incoming| && DistinctBy(incoming, key) && DistinctBy(held, key)
    ensures
      var (all, x) := (Joined(held, incoming[..n]), incoming[n]);
      var at := FindBy(all, key, key(x));
      && (NoClash(held, incoming[..n + 1], key) ==> NoClash(held, incoming[..n], key))
      && (NoClash(held, incoming[..n], key) ==>
            if at == |all| then x !in held && NoClash(held, incoming[..n + 1], key)
            else (NoClash(held, incoming[..n + 1], key) <==> all[at] == x) && (all[at] == x ==> x in held))
  {
    hide Joined;
    var all, x := Joined(held, incoming[..n]), incoming[n];
    var at := FindBy(all, key, key(x));
    assert incoming[..n + 1] == incoming[..n] + [x] && incoming[..n + 1][n] == x;
    forall i | 0 <= i < |held|
      ensures held[i] in all
    {
      JoinedIn(held, incoming[..n], held[i]);
    }
    if at < |all| {
      JoinedIn(held, incoming[..n], all[at]);
      assert forall j :: 0 <= j < n ==> key(incoming[..n][j]) == key(incoming[j]) != key(x);
      var i :| 0 <= i < |held| && held[i] == all[at];
      assert forall k :: 0 <= k < |held| && key(held[k]) == key(x) ==> k == i;
    } else {
      forall i | 0 <= i < |held|
        ensures key(held[i]) != key(x)
      {
        var k :| 0 <= k < |all| && all[k] == held[i];
        assert key(all[k]) != key(x);
      }
    }
  }

  /** Merging one by one succeeds exactly when nothing clashes and everything fits, and joins the lists. */
  lemma {:induction false} AssetsJoined(held: seq<Asset>, incoming: seq<Asset>, n: nat)
    requires n <= |incoming| && DistinctBy(incoming, AssetKey) && DistinctBy(held, AssetKey) && |held| <= MANIFEST_LIMIT
    ensures MergeAssets(held, incoming, n).Ok? <==>
      NoClash(held, incoming[..n], AssetKey) && |Joined(held, incoming[..n])| <= MANIFEST_LIMIT
    ensures MergeAssets(held, incoming, n).Ok? ==> MergeAssets(held, incoming, n).value == Joined(held, incoming[..n])
  {
    hide Joined, NoClash, DistinctBy;
    if n == 0 {
      NothingJoined(held);
      NothingClashes(held, AssetKey);
      assert incoming[..0] == [];
    } else {
      AssetsJoined(held, incoming, n - 1);
      JoinedMore(held, incoming, n - 1);
      NextJoined(held, incoming, n - 1, AssetKey);
    }
  }

  lemma {:induction false} BlobsJoined(held: seq<Blob>, incoming: seq<Blob>, n: nat)
    requires n <= |incoming| && DistinctBy(incoming, BlobKey) && DistinctBy(held, BlobKey) && |held| <= BLOB_LIMIT
    ensures MergeBlobs(held, incoming, n).Ok? <==>
      NoClash(held, incoming[..n], BlobKey) && |Joined(held, incoming[..n])| <= BLOB_LIMIT
    ensures MergeBlobs(held, incoming, n).Ok? ==> MergeBlobs(held, incoming, n).value == Joined(held, incoming[..n])
  {
    hide Joined, NoClash, DistinctBy;
    if n == 0 {
      NothingJoined(held);
      NothingClashes(held, BlobKey);
      assert incoming[..0] == [];
    } else {
      BlobsJoined(held, incoming, n - 1);
      JoinedMore(held, incoming, n - 1);
      NextJoined(held, incoming, n - 1, BlobKey);
    }
  }

  lemma NothingClashes<T>(held: seq<T>, key: T -> Text)
    ensures NoClash(held, [], key)
  {
  }

  /** The incoming content goes together with what is held: it clashes with nothing, and the union is within every quota. */
  ghost predicate Importable(st: Stock, c: Content) {
    && NoClash(st.assets, c.assets, AssetKey) && NoClash(st.blobs, c.blobs, BlobKey)
    && WithinQuota(Joined(st.assets, c.assets), Joined(st.blobs, c.blobs))
  }

  lemma MergedExact(pl: Platform, st: Stock, bundle: Bytes)
    requires Stocked(pl, st) && Decoded(pl, bundle).Ok?
    ensures
      var c := Decoded(pl, bundle).value;
      var (assets, blobs) := (MergeAssets(st.assets, c.assets, |c.assets|), MergeBlobs(st.blobs, c.blobs, |c.blobs|));
      Importable(st, c) <==> assets.Ok? && blobs.Ok? && WithinQuota(assets.value, blobs.value)
  {
    hide Stocked, NoClash, Joined, WithinQuota, Decoded, MergeAssets, MergeBlobs, DistinctBy, StrictBy;
    var c := Decoded(pl, bundle).value;
    StockedKeys(pl, st);
    DecodedSound(pl, bundle);
    StrictDistinct(c.assets, AssetKey);
    StrictDistinct(c.blobs, BlobKey);
    AssetsJoined(st.assets, c.assets, |c.assets|);
    BlobsJoined(st.blobs, c.blobs, |c.blobs|);
    assert c.assets[..|c.assets|] == c.assets && c.blobs[..|c.blobs|] == c.blobs;
    QuotaBounds(Joined(st.assets, c.assets), Joined(st.blobs, c.blobs));
  }

  lemma ImportedExact(pl: Platform, st: Stock, bundle: Bytes)
    requires Stocked(pl, st)
    ensures Imported(pl, st, bundle).Ok? <==> Decoded(pl, bundle).Ok? && Importable(st, Decoded(pl, bundle).value)
    ensures Imported(pl, st, bundle).Ok? ==>
      var next := Imported(pl, st, bundle).value.0;
      && |next.assets| >= |st.assets| && |next.blobs| >= |st.blobs|
      && next == st.(assets := next.assets, blobs := next.blobs)
  {
    hide Stocked, Importable, WithinQuota, Decoded, SortBy, MergeAssets, MergeBlobs;
    if Decoded(pl, bundle).Ok? {
      var c := Decoded(pl, bundle).value;
      MergedExact(pl, st, bundle);
      if Imported(pl, st, bundle).Ok? {
        AssetsGrow(st.assets, c.assets, |c.assets|);
        BlobsGrow(st.blobs, c.blobs, |c.blobs|);
      }
    }
  }

  lemma {:induction false} AssetsGrow(held: seq<Asset>, incoming: seq<Asset>, n: nat)
    requires n <= |incoming| && MergeAssets(held, incoming, n).Ok?
    ensures |MergeAssets(held, incoming, n).value| >= |held|
  {
    if n > 0 {
      AssetsGrow(held, incoming, n - 1);
    }
  }

  lemma {:induction false} BlobsGrow(held: seq<Blob>, incoming: seq<Blob>, n: nat)
    requires n <= |incoming| && MergeBlobs(held, incoming, n).Ok?
    ensures |MergeBlobs(held, incoming, n).value| >= |held|
  {
    if n > 0 {
      BlobsGrow(held, incoming, n - 1);
    }
  }

  /** An import commits exactly when the bundle decodes and goes together with what is held; it then adds what is new,
      keeps the rest, and reports the assets of the bundle. */
  lemma ImportExact(pl: Platform, st: Stock, bundle: Bytes, expected: u64)
    requires Stocked(pl, st)
    ensures
      var (next, outcome) := Applied(pl, st, Import(bundle), expected);
      && (outcome.committed <==>
            Current(st, expected) && Decoded(pl, bundle).Ok? && Importable(st, Decoded(pl, bundle).value))
      && (outcome.committed ==>
            var c := Decoded(pl, bundle).value;
            && (forall a :: a in next.assets <==> a in st.assets || a in c.assets)
            && (forall b :: b in next.blobs <==> b in st.blobs || b in c.blobs)
            && next == st.(revision := next.revision, assets := next.assets, blobs := next.blobs)
            && outcome == Outcome(true, next.revision, "", Ids(c.assets), 0, 0))
  {
    hide Stocked, Importable, Decoded, Imported;
    ImportedExact(pl, st, bundle);
    if Imported(pl, st, bundle).Ok? {
      ImportKeeps(pl, st, bundle);
    }
  }

  lemma StockedKeys(pl: Platform, st: Stock)
    requires Stocked(pl, st)
    ensures DistinctBy(st.assets, AssetKey) && DistinctBy(st.blobs, BlobKey)
    ensures |st.assets| <= MANIFEST_LIMIT && |st.blobs| <= BLOB_LIMIT
  {
    hide HistorySound, RootsSound, Less, Complete;
    StrictDistinct(st.assets, AssetKey);
    StrictDistinct(st.blobs, BlobKey);
  }

  lemma QuotaBounds(assets: seq<Asset>, blobs: seq<Blob>)
    ensures WithinQuota(assets, blobs) ==> |assets| <= MANIFEST_LIMIT && |blobs| <= BLOB_LIMIT
  {
  }

  // Retention

  /** An asset leaves only when it is collected without a root; a blob only with the last asset that needs it;
      and only an import brings new ones. */
  lemma OnlyUnrootedLeave(pl: Platform, st: Stock, command: Command, expected: u64)
    requires Stocked(pl, st)
    ensures
      var next := Applied(pl, st, command, expected).0;
      && (forall a :: a in st.assets && a !in next.assets ==> command.Collect? && !Rooted(st, a.id))
      && (forall b :: b in st.blobs && b !in next.blobs ==> command.Collect? && b.hash !in Referenced(next.assets))
      && (forall a :: a in next.assets && a !in st.assets ==>
            command.Import? && Decoded(pl, command.bundle).Ok? && a in Decoded(pl, command.bundle).value.assets)
      && (forall b :: b in next.blobs && b !in st.blobs ==>
            command.Import? && Decoded(pl, command.bundle).Ok? && b in Decoded(pl, command.bundle).value.blobs)
  {
    hide Stocked, Imported, Collected, CheckRoots, SortBy, FilterBy, FindBy, RootName, Referenced, Rooted;
    if Executed(pl, st, command).Ok? {
      match command
      case Import(bundle) => ImportKeeps(pl, st, bundle);
      case Collect => CollectedExact(st);
      case _ =>
    }
  }

  /** What collecting does, and when. */
  lemma CollectExact(pl: Platform, st: Stock, expected: u64)
    requires Stocked(pl, st)
    ensures
      var (next, outcome) := Applied(pl, st, Collect, expected);
      && (outcome.committed <==> Current(st, expected))
      && (outcome.committed ==>
            && (forall a :: a in next.assets <==> a in st.assets && Rooted(st, a.id))
            && (forall b :: b in next.blobs <==> b in st.blobs && b.hash in Referenced(next.assets))
            && next.currentRoots == st.currentRoots && next.historyRoots == st.historyRoots
            && outcome.imported == [])
  {
    hide Collected, Rooted, Referenced;
    CollectedExact(st);
  }

  /** Over any run an asset stays as long as some root names it, and so does its blob. */
  lemma {:induction false} RootedStays(pl: Platform, calls: seq<Call>, m: nat, n: nat, a: Asset)
    requires m <= n <= |calls| && a in Run(pl, calls[..m]).assets
    requires forall k :: m <= k < n ==> Rooted(Run(pl, calls[..k]), a.id)
    ensures a in Run(pl, calls[..n]).assets
    ensures exists b :: b in Run(pl, calls[..n]).blobs && b.hash == a.manifest.contentHash && |b.bytes| == a.manifest.decodedLength
    decreases n
  {
    hide Applied, Rooted, Stocked;
    RunStocked(pl, calls[..n]);
    if m < n {
      RootedStays(pl, calls, m, n - 1, a);
      RunStocked(pl, calls[..n - 1]);
      var call := calls[n - 1];
      assert calls[..n][..n - 1] == calls[..n - 1] && calls[..n][n - 1] == call;
      OnlyUnrootedLeave(pl, Run(pl, calls[..n - 1]), call.command, call.expected);
    }
    BlobHeld(pl, Run(pl, calls[..n]), a);
  }

  lemma BlobHeld(pl: Platform, st: Stock, a: Asset)
    requires Stocked(pl, st) && a in st.assets
    ensures exists b :: b in st.blobs && b.hash == a.manifest.contentHash && |b.bytes| == a.manifest.decodedLength
  {
    hide HistorySound, RootsSound, AssetSound, BlobSound, StrictBy, WithinQuota;
    var k :| 0 <= k < |st.assets| && st.assets[k] == a;
    assert Provided(st.blobs, st.assets[k]);
    var i :| 0 <= i < |st.blobs| && st.blobs[i].hash == a.manifest.contentHash && |st.blobs[i].bytes| == a.manifest.decodedLength;
    assert st.blobs[i] in st.blobs;
  }

  /** Roots that were accepted protect what they name from the next collection. */
  lemma SetThenCollect(pl: Platform, st: Stock, ids: seq<Text>, a: Asset)
    requires Stocked(pl, st) && a in st.assets && a.id in ids
    requires Applied(pl, st, SetCurrentRoots(ids), st.revision).1.committed
    ensures
      var rooted := Applied(pl, st, SetCurrentRoots(ids), st.revision).0;
      a in Applied(pl, rooted, Collect, rooted.revision).0.assets
  {
    hide Stocked, Acceptable;
    SetCurrentExact(pl, st, ids, st.revision);
    var rooted := Applied(pl, st, SetCurrentRoots(ids), st.revision).0;
    SameMembers(rooted.currentRoots, ids);
    AppliedKeeps(pl, st, SetCurrentRoots(ids), st.revision);
    CollectExact(pl, rooted, rooted.revision);
    hide Applied;
    assert Rooted(rooted, a.id);
  }
}
