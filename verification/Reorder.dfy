/** The order of the entries of a bundle does not matter. */
module Reorder {
  import opened Prelude
  import opened Texts
  import opened Commands
  import opened Keyed
  import opened Manifests
  import opened Bundles

  /** The entry is an encoding of its blob, under either codec. */
  predicate Encodes(p: Packed) {
    |p.encoded| <= BLOB_BYTE_LIMIT * 2 && p.codec <= 1 && Unpack(p.codec, p.encoded, |p.blob.bytes|) == Ok(p.blob.bytes)
  }

  /** What the entries have to satisfy, whatever their order. */
  predicate PackedSound(pl: Platform, p: Packed) {
    BlobSound(pl, p.blob) && Encodes(p)
  }

  const PackedKey: Packed -> Text := (p: Packed) => p.blob.hash
  const PackedSize: Packed -> nat := (p: Packed) => |p.blob.bytes|

  predicate Sound(pl: Platform, assets: seq<Asset>, ps: seq<Packed>) {
    && |assets| <= MANIFEST_LIMIT && |ps| <= BLOB_LIMIT
    && (forall i :: 0 <= i < |assets| ==> AssetSound(pl, assets[i])) && DistinctBy(assets, AssetKey)
    && (forall i :: 0 <= i < |ps| ==> PackedSound(pl, ps[i])) && DistinctBy(ps, PackedKey)
    && SumBy(ps, PackedSize) <= DECODED_BYTE_LIMIT
  }

  lemma {:induction false} SizesAgree(ps: seq<Packed>)
    ensures SumBy(ps, PackedSize) == Total(Blobs(ps))
  {
    if ps != [] {
      var front := ps[..|ps| - 1];
      SizesAgree(front);
      assert Blobs(ps)[..|ps| - 1] == Blobs(front);
    }
  }

  /** Reading entries one by one accepts exactly the lists whose entries are sound and distinct within the limits. */
  lemma FitIsSound(pl: Platform, assets: seq<Asset>, ps: seq<Packed>)
    ensures EntriesFit(pl, assets, ps) <==> Sound(pl, assets, ps)
  {
    AssetsFitSound(pl, assets);
    PackedsFitSound(pl, ps);
    hide AssetSound, PackedSound, AssetsFit, PackedsFit, DistinctBy, ValidManifest, ValidHash;
    forall i | 0 <= i < |assets| && AssetSound(pl, assets[i])
      ensures ValidHash(assets[i].id) && ValidManifest(assets[i].manifest)
    {
      SoundPrints(pl, assets[i]);
    }
  }

  lemma SoundPrints(pl: Platform, a: Asset)
    requires AssetSound(pl, a)
    ensures ValidHash(a.id) && ValidManifest(a.manifest)
  {
  }

  lemma AssetsFitSound(pl: Platform, assets: seq<Asset>)
    ensures AssetsFit(pl, assets, 0) <==>
      (forall i :: 0 <= i < |assets| ==> AssetSound(pl, assets[i])) && DistinctBy(assets, AssetKey)
  {
    hide AssetSound;
    if AssetsFit(pl, assets, 0) {
      forall i, j | 0 <= i < j < |assets|
        ensures AssetKey(assets[i]) != AssetKey(assets[j])
      {
        assert AssetFits(pl, assets[..j], assets[j]) && assets[..j][i] == assets[i];
      }
      forall i | 0 <= i < |assets|
        ensures AssetSound(pl, assets[i])
      {
        assert AssetFits(pl, assets[..i], assets[i]);
      }
    }
    if (forall i :: 0 <= i < |assets| ==> AssetSound(pl, assets[i])) && DistinctBy(assets, AssetKey) {
      forall k | 0 <= k < |assets|
        ensures AssetFits(pl, assets[..k], assets[k])
      {
        forall i | 0 <= i < k
          ensures assets[..k][i].id != assets[k].id
        {
          assert AssetKey(assets[i]) != AssetKey(assets[k]);
        }
      }
    }
  }

  lemma {:induction false} TotalStep(ps: seq<Packed>, k: nat)
    requires k < |ps|
    ensures SumBy(ps[..k + 1], PackedSize) == Total(Blobs(ps[..k])) + |ps[k].blob.bytes|
    ensures SumBy(ps[..k + 1], PackedSize) <= SumBy(ps, PackedSize)
  {
    hide Total;
    SizesAgree(ps[..k]);
    assert ps[..k + 1][..k] == ps[..k];
    SumPart(ps, PackedSize, k + 1);
  }

  lemma {:induction false} PackedsFitted(pl: Platform, ps: seq<Packed>)
    requires PackedsFit(pl, ps, 0)
    ensures (forall i :: 0 <= i < |ps| ==> PackedSound(pl, ps[i])) && DistinctBy(ps, PackedKey)
    ensures SumBy(ps, PackedSize) <= DECODED_BYTE_LIMIT
  {
    hide Unpack, Total, SumBy, BlobSound;
    forall i, j | 0 <= i < j < |ps|
      ensures PackedKey(ps[i]) != PackedKey(ps[j])
    {
      assert PackedFits(pl, Blobs(ps[..j]), ps[j]) && Blobs(ps[..j])[i] == ps[i].blob;
    }
    forall i | 0 <= i < |ps|
      ensures PackedSound(pl, ps[i])
    {
      assert PackedFits(pl, Blobs(ps[..i]), ps[i]);
    }
    if ps == [] {
      EmptySum();
    } else {
      var k := |ps| - 1;
      assert PackedFits(pl, Blobs(ps[..k]), ps[k]);
      TotalStep(ps, k);
      assert ps[..k + 1] == ps;
    }
  }

  lemma {:induction false} PackedFitting(pl: Platform, ps: seq<Packed>, k: nat)
    requires k < |ps| && PackedSound(pl, ps[k]) && DistinctBy(ps, PackedKey) && SumBy(ps, PackedSize) <= DECODED_BYTE_LIMIT
    ensures PackedFits(pl, Blobs(ps[..k]), ps[k])
  {
    hide Unpack, Total, SumBy, BlobSound;
    TotalStep(ps, k);
    SoundSize(pl, ps[k].blob);
    forall i | 0 <= i < k
      ensures Blobs(ps[..k])[i].hash != ps[k].blob.hash
    {
      assert PackedKey(ps[i]) != PackedKey(ps[k]);
    }
  }

  lemma {:induction false} PackedsFitSound(pl: Platform, ps: seq<Packed>)
    ensures PackedsFit(pl, ps, 0) <==>
      && (forall i :: 0 <= i < |ps| ==> PackedSound(pl, ps[i])) && DistinctBy(ps, PackedKey)
      && SumBy(ps, PackedSize) <= DECODED_BYTE_LIMIT
  {
    hide PackedSound, PackedFits, DistinctBy, SumBy;
    if PackedsFit(pl, ps, 0) {
      PackedsFitted(pl, ps);
    }
    if (forall i :: 0 <= i < |ps| ==> PackedSound(pl, ps[i])) && DistinctBy(ps, PackedKey) && SumBy(ps, PackedSize) <= DECODED_BYTE_LIMIT {
      forall k | 0 <= k < |ps|
        ensures PackedFits(pl, Blobs(ps[..k]), ps[k])
      {
        PackedFitting(pl, ps, k);
      }
    }
  }

  lemma EmptySum()
    ensures SumBy([], PackedSize) == 0
  {
  }

  lemma SoundSize(pl: Platform, b: Blob)
    requires BlobSound(pl, b)
    ensures |b.bytes| <= BLOB_BYTE_LIMIT
  {
  }

  // The check of the references, order-free

  predicate Provided(blobs: seq<Blob>, a: Asset) {
    exists i :: 0 <= i < |blobs| && blobs[i].hash == a.manifest.contentHash && |blobs[i].bytes| == a.manifest.decodedLength
  }

  lemma ReferenceExact(blobs: seq<Blob>, a: Asset)
    requires DistinctBy(blobs, BlobKey)
    ensures ReferenceRefusal(blobs, a).None? <==> Provided(blobs, a)
  {
    var at := FindBy(blobs, BlobKey, a.manifest.contentHash);
    forall i | 0 <= i < |blobs| && blobs[i].hash == a.manifest.contentHash
      ensures i == at
    {
      assert BlobKey(blobs[i]) == a.manifest.contentHash;
    }
  }

  lemma {:induction false} ReferencesExact(blobs: seq<Blob>, assets: seq<Asset>, n: nat)
    requires DistinctBy(blobs, BlobKey) && n <= |assets|
    ensures ReferencesRefusal(blobs, assets, n).None? <==> forall i :: 0 <= i < n ==> Provided(blobs, assets[i])
  {
    hide ReferenceRefusal, Provided;
    if n > 0 {
      ReferencesExact(blobs, assets, n - 1);
      ReferenceExact(blobs, assets[n - 1]);
    }
  }

  function Hashes(blobs: seq<Blob>): set<Text> {
    set i | 0 <= i < |blobs| :: blobs[i].hash
  }

  lemma {:induction false} HashCount(blobs: seq<Blob>)
    requires DistinctBy(blobs, BlobKey)
    ensures |Hashes(blobs)| == |blobs|
  {
    if blobs != [] {
      var front, last := blobs[..|blobs| - 1], blobs[|blobs| - 1];
      HashCount(front);
      forall i | 0 <= i < |front|
        ensures front[i].hash != last.hash
      {
        assert BlobKey(blobs[i]) != BlobKey(last);
      }
      forall h
        ensures h in Hashes(blobs) <==> h in Hashes(front) + {last.hash}
      {
        if h in Hashes(front) {
          var i :| 0 <= i < |front| && front[i].hash == h;
          assert blobs[i].hash == h;
        }
        if h in Hashes(blobs) {
          var i :| 0 <= i < |blobs| && blobs[i].hash == h;
          assert i < |front| ==> front[i].hash == h;
        }
      }
      assert Hashes(blobs) == Hashes(front) + {last.hash};
    }
  }

  lemma SubsetCount<T>(a: set<T>, b: set<T>)
    requires a <= b
    ensures |a| <= |b| && (|a| == |b| <==> a == b)
  {
    assert b == a + (b - a);
  }

  /** Every asset has its blob, of the announced length, and every blob is referred to. */
  predicate Complete(assets: seq<Asset>, blobs: seq<Blob>) {
    && (forall i :: 0 <= i < |assets| ==> Provided(blobs, assets[i]))
    && Hashes(blobs) <= Referenced(assets)
  }

  lemma {:induction false} CheckExact(assets: seq<Asset>, blobs: seq<Blob>)
    requires DistinctBy(blobs, BlobKey)
    ensures CheckContent(assets, blobs).Ok? <==> Complete(assets, blobs)
    ensures CheckContent(assets, blobs).Ok? ==>
      CheckContent(assets, blobs).value == Content(SortBy(assets, AssetKey), SortBy(blobs, BlobKey))
  {
    hide SortBy, ReferencesRefusal;
    ReferencesExact(blobs, assets, |assets|);
    HashCount(blobs);
    if forall i :: 0 <= i < |assets| ==> Provided(blobs, assets[i]) {
      forall h | h in Referenced(assets)
        ensures h in Hashes(blobs)
      {
        var i :| 0 <= i < |assets| && assets[i].manifest.contentHash == h;
        assert Provided(blobs, assets[i]);
      }
      SubsetCount(Referenced(assets), Hashes(blobs));
    }
  }

  // Reordering

  lemma BlobsDistinct(ps: seq<Packed>)
    requires DistinctBy(ps, PackedKey)
    ensures DistinctBy(Blobs(ps), BlobKey)
  {
    forall i, j | 0 <= i < j < |ps|
      ensures BlobKey(Blobs(ps)[i]) != BlobKey(Blobs(ps)[j])
    {
      assert PackedKey(ps[i]) != PackedKey(ps[j]);
    }
  }

  predicate SameBlobs(ps: seq<Packed>, ps': seq<Packed>) {
    multiset(Blobs(ps)) == multiset(Blobs(ps')) && forall i :: 0 <= i < |ps'| ==> Encodes(ps'[i])
  }

  lemma SoundRepacked(pl: Platform, assets: seq<Asset>, ps: seq<Packed>, assets': seq<Asset>, ps': seq<Packed>)
    requires Sound(pl, assets, ps) && multiset(assets) == multiset(assets') && SameBlobs(ps, ps')
    ensures Sound(pl, assets', ps')
  {
    hide AssetSound, BlobSound, Encodes, SumBy, Total;
    DistinctSame(assets, assets', AssetKey);
    SameLength(assets, assets');
    SameMembers(assets, assets');
    forall i | 0 <= i < |assets'|
      ensures AssetSound(pl, assets'[i])
    {
      assert assets'[i] in assets;
    }
    BlobsDistinct(ps);
    DistinctSame(Blobs(ps), Blobs(ps'), BlobKey);
    SameLength(Blobs(ps), Blobs(ps'));
    SameMembers(Blobs(ps), Blobs(ps'));
    TotalSame(ps, ps');
    forall i | 0 <= i < |ps'|
      ensures PackedSound(pl, ps'[i])
    {
      assert Blobs(ps')[i] in Blobs(ps);
      var k :| 0 <= k < |ps| && Blobs(ps)[k] == ps'[i].blob;
      assert PackedSound(pl, ps[k]);
    }
    forall i, j | 0 <= i < j < |ps'|
      ensures PackedKey(ps'[i]) != PackedKey(ps'[j])
    {
      assert BlobKey(Blobs(ps')[i]) != BlobKey(Blobs(ps')[j]);
    }
  }

  lemma {:induction false} TotalSame(ps: seq<Packed>, ps': seq<Packed>)
    requires multiset(Blobs(ps)) == multiset(Blobs(ps'))
    ensures SumBy(ps, PackedSize) == SumBy(ps', PackedSize)
  {
    hide SumBy;
    SizesAgree(ps);
    SizesAgree(ps');
    SumSame(Blobs(ps), Blobs(ps'), BlobSize);
  }

  lemma SameLength<T>(a: seq<T>, b: seq<T>)
    requires multiset(a) == multiset(b)
    ensures |a| == |b|
  {
    assert |multiset(a)| == |a| && |multiset(b)| == |b|;
  }

  lemma CompleteMembers(assets: seq<Asset>, blobs: seq<Blob>, assets': seq<Asset>, blobs': seq<Blob>)
    requires Complete(assets, blobs)
    requires (forall x :: x in assets <==> x in assets') && forall x :: x in blobs <==> x in blobs'
    ensures Complete(assets', blobs')
  {
    forall i | 0 <= i < |assets'|
      ensures Provided(blobs', assets'[i])
    {
      assert assets'[i] in assets;
      var k :| 0 <= k < |assets| && assets[k] == assets'[i];
      ProvidedCarry(blobs, blobs', assets[k]);
    }
    forall h | h in Hashes(blobs')
      ensures h in Referenced(assets')
    {
      var j :| 0 <= j < |blobs'| && blobs'[j].hash == h;
      assert blobs'[j] in blobs;
      var m :| 0 <= m < |blobs| && blobs[m] == blobs'[j];
      assert h in Hashes(blobs);
      ReferencedCarry(assets, assets', h);
    }
  }

  lemma ProvidedCarry(blobs: seq<Blob>, blobs': seq<Blob>, a: Asset)
    requires Provided(blobs, a) && forall x :: x in blobs ==> x in blobs'
    ensures Provided(blobs', a)
  {
    var j :| 0 <= j < |blobs| && blobs[j].hash == a.manifest.contentHash && |blobs[j].bytes| == a.manifest.decodedLength;
    assert blobs[j] in blobs';
    var m :| 0 <= m < |blobs'| && blobs'[m] == blobs[j];
  }

  lemma ReferencedCarry(assets: seq<Asset>, assets': seq<Asset>, h: Text)
    requires h in Referenced(assets) && forall x :: x in assets ==> x in assets'
    ensures h in Referenced(assets')
  {
    var k :| 0 <= k < |assets| && assets[k].manifest.contentHash == h;
    assert assets[k] in assets';
    var i :| 0 <= i < |assets'| && assets'[i] == assets[k];
  }

  lemma BlobsWithout(ps: seq<Packed>, i: nat)
    requires i < |ps|
    ensures multiset(Blobs(ps[..i] + ps[i + 1..])) == multiset(Blobs(ps)) - multiset{ps[i].blob}
  {
    assert Blobs(ps[..i] + ps[i + 1..]) == Blobs(ps)[..i] + Blobs(ps)[i + 1..];
    WithoutOne(Blobs(ps), i);
  }

  lemma {:induction false} BlobsSame(ps: seq<Packed>, ps': seq<Packed>)
    requires multiset(ps) == multiset(ps')
    ensures multiset(Blobs(ps)) == multiset(Blobs(ps'))
    decreases |ps|
  {
    hide Blobs;
    SameLength(ps, ps');
    if ps == [] {
      assert ps' == [];
    } else {
      var p := ps[0];
      assert p in multiset(ps');
      var i :| 0 <= i < |ps'| && ps'[i] == p;
      WithoutOne(ps, 0);
      WithoutOne(ps', i);
      BlobsSame(ps[..0] + ps[1..], ps'[..i] + ps'[i + 1..]);
      BlobsMeet(ps, ps', i);
    }
  }

  lemma BlobsMeet(ps: seq<Packed>, ps': seq<Packed>, i: nat)
    requires ps != [] && i < |ps'| && ps'[i] == ps[0]
    requires multiset(Blobs(ps[..0] + ps[1..])) == multiset(Blobs(ps'[..i] + ps'[i + 1..]))
    ensures multiset(Blobs(ps)) == multiset(Blobs(ps'))
  {
    hide Blobs;
    BlobsWithout(ps, 0);
    BlobsWithout(ps', i);
    BlobIn(ps, 0);
    BlobIn(ps', i);
    MultisetsMeet(multiset(Blobs(ps)), multiset(Blobs(ps')), ps[0].blob);
  }

  lemma BlobIn(ps: seq<Packed>, i: nat)
    requires i < |ps|
    ensures ps[i].blob in multiset(Blobs(ps))
  {
    assert Blobs(ps)[i] in Blobs(ps);
  }

  lemma MultisetsMeet<T>(a: multiset<T>, b: multiset<T>, x: T)
    requires x in a && x in b && a - multiset{x} == b - multiset{x}
    ensures a == b
  {
    assert a == a - multiset{x} + multiset{x} && b == b - multiset{x} + multiset{x};
  }

  /** The octets an entry takes. */
  const AssetLength: Asset -> nat := (a: Asset) => 36 + (if ValidHash(a.manifest.contentHash) then |ManifestBytes(a.manifest)| else 0)
  const PackedLength: Packed -> nat := (p: Packed) => 11 + |BLOB_PATH| + |p.blob.hash| + |p.encoded|

  lemma {:induction false} AssetListSize(assets: seq<Asset>, rest: Bytes, m: nat)
    requires m <= |assets| && Printables(assets[m..])
    ensures SumBy(assets[..m], AssetLength) + |AssetList(assets[m..], rest)| == SumBy(assets, AssetLength) + |rest|
    decreases |assets| - m
  {
    hide ManifestBytes;
    if m < |assets| {
      var more := assets[m..];
      assert more[1..] == assets[m + 1..] && assets[..m + 1][..m] == assets[..m];
      AssetListSize(assets, rest, m + 1);
    } else {
      assert assets[..m] == assets && assets[m..] == [];
    }
  }

  lemma {:induction false} PackedListSize(ps: seq<Packed>, m: nat)
    requires m <= |ps|
    ensures SumBy(ps[..m], PackedLength) + |PackedList(ps[m..], [])| == SumBy(ps, PackedLength)
    decreases |ps| - m
  {
    if m < |ps| {
      var more := ps[m..];
      assert more[1..] == ps[m + 1..] && ps[..m + 1][..m] == ps[..m];
      PackedListSize(ps, m + 1);
    } else {
      assert ps[..m] == ps && ps[m..] == [];
    }
  }

  lemma {:induction false} BundleSize(assets: seq<Asset>, ps: seq<Packed>)
    requires Printables(assets)
    ensures |BundleBytes(assets, ps)| == 20 + SumBy(assets, AssetLength) + SumBy(ps, PackedLength)
  {
    hide AssetList, PackedList;
    assert assets[0..] == assets && ps[0..] == ps && assets[..0] == [] && ps[..0] == [];
    AssetListSize(assets, PackedList(ps, []), 0);
    PackedListSize(ps, 0);
  }

  /** The same assets and blobs in any other order and under any codecs are accepted with the same content, unless the bytes
      no longer fit a bundle. */
  lemma RepackedSame(pl: Platform, assets: seq<Asset>, ps: seq<Packed>, assets': seq<Asset>, ps': seq<Packed>)
    requires Printables(assets) && Decoded(pl, BundleBytes(assets, ps)).Ok? && EntriesFit(pl, assets, ps)
    requires multiset(assets) == multiset(assets') && SameBlobs(ps, ps')
    ensures EntriesFit(pl, assets', ps') && Printables(assets')
    ensures
      Decoded(pl, BundleBytes(assets', ps')) ==
        if |BundleBytes(assets', ps')| > BUNDLE_BYTE_LIMIT then Err("BUDGET_EXCEEDED") else Decoded(pl, BundleBytes(assets, ps))
  {
    hide EntriesFit, BundleBytes, Sound, AssetSound, PackedSound, Encodes, DistinctBy, TakeEntries, Complete, CheckContent, SumBy, SortBy;
    FitIsSound(pl, assets, ps);
    SoundRepacked(pl, assets, ps, assets', ps');
    FitIsSound(pl, assets', ps');
    FitPrintables(pl, assets', ps');
    EntriesRead(pl, assets, ps, []);
    EntriesRead(pl, assets', ps', []);
    assert BundleBytes(assets, ps) + [] == BundleBytes(assets, ps);
    assert BundleBytes(assets', ps') + [] == BundleBytes(assets', ps');
    SoundDistinct(pl, assets, ps);
    SoundDistinct(pl, assets', ps');
    CheckExact(assets, Blobs(ps));
    CheckExact(assets', Blobs(ps'));
    SameMembers(assets, assets');
    SameMembers(Blobs(ps), Blobs(ps'));
    if Complete(assets, Blobs(ps)) {
      CompleteMembers(assets, Blobs(ps), assets', Blobs(ps'));
    }
    SortSame(assets, assets', AssetKey);
    SortSame(Blobs(ps), Blobs(ps'), BlobKey);
  }

  /** Any reordering of the entries of an accepted bundle is accepted with the same content. */
  lemma ReorderedSame(pl: Platform, assets: seq<Asset>, ps: seq<Packed>, assets': seq<Asset>, ps': seq<Packed>)
    requires Printables(assets) && Decoded(pl, BundleBytes(assets, ps)).Ok?
    requires multiset(assets) == multiset(assets') && multiset(ps) == multiset(ps')
    requires EntriesFit(pl, assets, ps)
    ensures Printables(assets') && |BundleBytes(assets', ps')| == |BundleBytes(assets, ps)|
    ensures Decoded(pl, BundleBytes(assets', ps')) == Decoded(pl, BundleBytes(assets, ps))
  {
    hide EntriesFit, BundleBytes, AssetSound, BlobSound, Encodes, DistinctBy, TakeEntries, CheckContent, SumBy;
    FitIsSound(pl, assets, ps);
    SameMembers(ps, ps');
    forall i | 0 <= i < |ps'|
      ensures Encodes(ps'[i])
    {
      assert ps'[i] in ps;
      var k :| 0 <= k < |ps| && ps[k] == ps'[i];
      assert PackedSound(pl, ps[k]);
    }
    BlobsSame(ps, ps');
    RepackedSame(pl, assets, ps, assets', ps');
    BundleSize(assets, ps);
    BundleSize(assets', ps');
    SumSame(assets, assets', AssetLength);
    SumSame(ps, ps', PackedLength);
  }

  lemma SoundDistinct(pl: Platform, assets: seq<Asset>, ps: seq<Packed>)
    requires Sound(pl, assets, ps)
    ensures DistinctBy(assets, AssetKey) && DistinctBy(Blobs(ps), BlobKey)
  {
    hide DistinctBy, AssetSound, PackedSound, SumBy;
    BlobsDistinct(ps);
  }
}
