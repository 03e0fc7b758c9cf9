/** Which packages the store accepts, and decoding them back with the world they describe. */
module Durable {
  import opened Prelude
  import opened Texts
  import opened Readers
  import opened Worlds
  import opened Commands
  import opened Batch
  import opened Lifetimes
  import opened Canonical
  import opened Replay
  import opened Package

  /** The store's bound on commands also asks for at least one operation. */
  predicate BoundedCommand(e: Envelope) {
    Bounded(e) && e.operations != []
  }

  /** The canonical command of entry `i` belongs at that place of this package. */
  predicate EntryValid(pl: Platform, p: Package, i: nat)
    requires i < |p.entries|
  {
    var entry := p.entries[i];
    var parsed := pl.parse(entry.payload);
    && entry.sequence == i + 1 && (i > 0 ==> entry.tick >= p.entries[i - 1].tick)
    && parsed.Some?
    && BoundedCommand(parsed.value) && parsed.value.worldId == p.config.worldId
    && parsed.value.expectedRevision == i && parsed.value.sequence == i + 1 && parsed.value.epoch == p.epoch
    && Serialize(pl, parsed.value) == Some(entry.payload)
  }

  predicate EntriesValid(pl: Platform, p: Package, n: nat)
    requires n <= |p.entries|
  {
    forall i :: 0 <= i < n ==> EntryValid(pl, p, i)
  }

  /** The durable receipt of an entry. */
  function ReceiptOf(pl: Platform, entry: Entry): Receipt {
    Receipt(COMMITTED, DURABLE, if pl.parse(entry.payload).Some? then pl.parse(entry.payload).value.transactionId else [],
            entry.sequence, entry.created, [])
  }

  /** The receipts from the low-water to the high-water mark. */
  function ReceiptsOf(pl: Platform, entries: seq<Entry>): (r: seq<Receipt>)
    ensures |r| == |entries| + 1 - LowOf(|entries|)
  {
    var skip := LowOf(|entries|) - 1;
    seq(|entries| - skip, i requires 0 <= i < |entries| - skip => ReceiptOf(pl, entries[skip + i]))
  }

  function RecordOf(pl: Platform, entry: Entry, i: u64): Record {
    var e := pl.parse(entry.payload);
    Record(entry.sequence, entry.tick, i, if e.Some? then e.value.budget else Budget(0, 0),
           if e.Some? then e.value.operations else [], entry.created, entry.checkpoint)
  }

  function RecordsOf(pl: Platform, entries: seq<Entry>): (r: seq<Record>)
    requires |entries| < U64_LIMIT
    ensures |r| == |entries|
  {
    seq(|entries|, i requires 0 <= i < |entries| => RecordOf(pl, entries[i], i))
  }

  function LogOf(pl: Platform, p: Package): Log
    requires |p.entries| < U64_LIMIT
  {
    Log(1, PROTOCOL, CHECKPOINT_SCHEMA, p.config.worldId, p.config.seed, p.config.maxSlots, [Builtin(pl)], RecordsOf(pl, p.entries))
  }

  /** What `decode` makes of the payload of a frame. */
  function Decoded(pl: Platform, b: Bytes): Option<(Package, Snapshot)> {
    var p :- TakePackage(pl, b);
    if |p.entries| > COMMIT_LIMIT || !EntriesValid(pl, p, |p.entries|) || p.receipts != ReceiptsOf(pl, p.entries) then None
    else
      match Reconstruction(pl, LogOf(pl, p), [Builtin(pl)])
      case Ok(w) => Some((p, w))
      case Err(_) => None
  }

  method ReadBindings(r: Reader) returns (v: Option<seq<Binding>>)
    requires r.Valid()
    modifies r
    ensures r.Valid()
    ensures match TakeBindings(old(r.Rest()))
      case Some((bs, rest)) => v == Some(bs) && r.Rest() == rest
      case None => v == None
  {
    hide TakeText, TakeU32, TakeU64;
    var count :- r.U32();
    if count > OPERATION_BOUND {
      return None;
    }
    ghost var start := r.Rest();
    var bs: seq<Binding>, i := [], 0;
    assert forall more: seq<Binding> :: bs + more == more;
    while i < count
      invariant i <= count && r.Valid()
      invariant match TakeBindingList(r.Rest(), count - i)
        case Some((more, rest)) => TakeBindingList(start, count) == Some((bs + more, rest))
        case None => TakeBindingList(start, count) == None
    {
      ghost var here := r.Rest();
      assert TakeBinding(here).None? ==> TakeBindingList(here, count - i).None?;
      var id :- r.Text(64);
      var world :- r.Text(128);
      var uuid :- r.Text(36);
      var generation :- r.U64();
      var b := Binding(id, world, uuid, generation);
      assert TakeBinding(here) == Some((b, r.Rest()));
      assert forall more: seq<Binding> :: bs + ([b] + more) == (bs + [b]) + more;
      bs, i := bs + [b], i + 1;
    }
    assert bs + [] == bs;
    v := Some(bs);
  }

  method ReadEntry(r: Reader) returns (v: Option<Entry>)
    requires r.Valid()
    modifies r
    ensures r.Valid()
    ensures match TakeEntry(old(r.Rest()))
      case Some((e, rest)) => v == Some(e) && r.Rest() == rest
      case None => v == None
  {
    hide TakeText, TakeU32, TakeU64, TakeBindings;
    var sequence :- r.U64();
    var tick :- r.U64();
    var payload :- r.Text(COMMAND_LIMIT);
    var created :- ReadBindings(r);
    var checkpoint :- r.Text(CHECKPOINT_LIMIT);
    v := Some(Entry(sequence, tick, payload, created, checkpoint));
  }

  method ReadReceipt(r: Reader) returns (v: Option<Receipt>)
    requires r.Valid()
    modifies r
    ensures r.Valid()
    ensures match TakeReceipt(old(r.Rest()))
      case Some((e, rest)) => v == Some(e) && r.Rest() == rest
      case None => v == None
  {
    hide TakeText, TakeU32, TakeU64, TakeBindings;
    var status :- r.Text(16);
    var durability :- r.Text(16);
    var id :- r.Text(36);
    var revision :- r.U64();
    var created :- ReadBindings(r);
    var errors :- r.U32();
    if errors != 0 {
      return None;
    }
    v := Some(Receipt(status, durability, id, revision, created, []));
  }

  method ReadEntries(r: Reader, count: nat) returns (v: Option<seq<Entry>>)
    requires r.Valid()
    modifies r
    ensures r.Valid()
    ensures match TakeEntries(old(r.Rest()), count)
      case Some((es, rest)) => v == Some(es) && r.Rest() == rest
      case None => v == None
  {
    hide TakeEntry;
    ghost var start := r.Rest();
    var es: seq<Entry>, i := [], 0;
    assert forall more: seq<Entry> :: es + more == more;
    while i < count
      invariant i <= count && r.Valid()
      invariant match TakeEntries(r.Rest(), count - i)
        case Some((more, rest)) => TakeEntries(start, count) == Some((es + more, rest))
        case None => TakeEntries(start, count) == None
    {
      ghost var here := r.Rest();
      assert TakeEntry(here).None? ==> TakeEntries(here, count - i).None?;
      var e :- ReadEntry(r);
      assert forall more: seq<Entry> :: es + ([e] + more) == (es + [e]) + more;
      es, i := es + [e], i + 1;
    }
    assert es + [] == es;
    v := Some(es);
  }

  method ReadReceipts(r: Reader, count: nat) returns (v: Option<seq<Receipt>>)
    requires r.Valid()
    modifies r
    ensures r.Valid()
    ensures match TakeReceipts(old(r.Rest()), count)
      case Some((rs, rest)) => v == Some(rs) && r.Rest() == rest
      case None => v == None
  {
    hide TakeReceipt;
    ghost var start := r.Rest();
    var rs: seq<Receipt>, i := [], 0;
    assert forall more: seq<Receipt> :: rs + more == more;
    while i < count
      invariant i <= count && r.Valid()
      invariant match TakeReceipts(r.Rest(), count - i)
        case Some((more, rest)) => TakeReceipts(start, count) == Some((rs + more, rest))
        case None => TakeReceipts(start, count) == None
    {
      ghost var here := r.Rest();
      assert TakeReceipt(here).None? ==> TakeReceipts(here, count - i).None?;
      var e :- ReadReceipt(r);
      assert forall more: seq<Receipt> :: rs + ([e] + more) == (rs + [e]) + more;
      rs, i := rs + [e], i + 1;
    }
    assert rs + [] == rs;
    v := Some(rs);
  }

  method ReadConfig(r: Reader) returns (v: Option<Config>)
    requires r.Valid()
    modifies r
    ensures r.Valid()
    ensures match TakeConfig(old(r.Rest()))
      case Some((c, rest)) => v == Some(c) && r.Rest() == rest
      case None => v == None
  {
    hide TakeText, TakeU32, TakeU64;
    var worldId :- r.Text(128);
    var seed :- r.U32();
    var maxSlots :- r.U32();
    var quota :- r.U64();
    var c := Config(worldId, seed, maxSlots, quota);
    if !ValidConfig(c) {
      return None;
    }
    v := Some(c);
  }

  method ReadMarks(pl: Platform, r: Reader) returns (v: Option<(Text, u64)>)
    requires r.Valid()
    modifies r
    ensures r.Valid()
    ensures match TakeMarks(pl, old(r.Rest()))
      case Some((epoch, high, rest)) => v == Some((epoch, high)) && r.Rest() == rest
      case None => v == None
  {
    hide TakeText, TakeU64, HexText;
    var epoch :- r.Text(64);
    if |epoch| != 64 || !HexText(epoch) {
      return None;
    }
    var high :- r.U64();
    var low :- r.U64();
    if high > COMMIT_LIMIT || low != LowOf(high) {
      return None;
    }
    var manifest :- r.Text(4096);
    var digest :- r.Text(64);
    if manifest != pl.manifest || digest != pl.manifestSha {
      return None;
    }
    v := Some((epoch, high));
  }

  method ReadPackage(pl: Platform, bytes: Bytes) returns (v: Option<Package>)
    ensures v == TakePackage(pl, bytes)
  {
    hide TakeMarks, TakeMagic, TakeConfig, TakeBody;
    var r := new Reader(bytes);
    var _ :- r.Magic(PACKAGE_MAGIC);
    var config :- ReadConfig(r);
    var marks :- ReadMarks(pl, r);
    var body :- ReadBody(r, marks.1);
    v := Some(Package(config, marks.0, body.0, body.1));
  }

  method ReadBody(r: Reader, high: nat) returns (v: Option<(seq<Entry>, seq<Receipt>)>)
    requires r.Valid()
    modifies r
    ensures v == TakeBody(old(r.Rest()), high)
  {
    hide TakeU32, TakeEntries, TakeReceipts;
    var count :- r.U32();
    if count != high {
      return None;
    }
    var entries :- ReadEntries(r, count);
    var retained :- r.U32();
    if retained > RECEIPT_LIMIT {
      return None;
    }
    var receipts :- ReadReceipts(r, retained);
    if r.at != |r.bytes| {
      assert r.Rest() != [];
      return None;
    }
    assert r.Rest() == [];
    v := Some((entries, receipts));
  }

  /** Decodes a payload, checks every entry and receipt, and replays the world. */
  method Decode(pl: Platform, bytes: Bytes) returns (v: Option<Package>, world: World?)
    ensures match Decoded(pl, bytes)
      case Some((p, w)) => v == Some(p) && world != null && fresh(world) && world.state == w
      case None => v == None && world == null
  {
    hide TakePackage, EntryValid, ReceiptOf, Reconstruction, LogOf;
    world := null;
    v := ReadPackage(pl, bytes);
    if v.None? || |v.value.entries| > COMMIT_LIMIT {
      return None, null;
    }
    var p, i, expected := v.value, 0, [];
    while i < |p.entries|
      invariant i <= |p.entries| && EntriesValid(pl, p, i)
      invariant expected == if i < LowOf(|p.entries|) then [] else ReceiptsOf(pl, p.entries)[..i + 1 - LowOf(|p.entries|)]
    {
      if !EntryValid(pl, p, i) {
        return None, null;
      }
      if i + 1 >= LowOf(|p.entries|) {
        expected := expected + [ReceiptOf(pl, p.entries[i])];
      }
      i := i + 1;
    }
    assert expected == ReceiptsOf(pl, p.entries);
    if p.receipts != expected {
      return None, null;
    }
    var error;
    world, error := Reconstruct(pl, LogOf(pl, p), [Builtin(pl)]);
    if error.Some? {
      return None, null;
    }
  }

  // Sound packages

  /** `p` is a package the store may hold, and `w` the world it describes. */
  ghost predicate Sound(pl: Platform, p: Package, w: Snapshot) {
    && PackageFits(p) && EntriesValid(pl, p, |p.entries|) && p.receipts == ReceiptsOf(pl, p.entries)
    && w.worldId == p.config.worldId && w.seed == p.config.seed && w.maxSlots == p.config.maxSlots
    && w.revision == |p.entries|
    && Tracks(pl, w, RecordsOf(pl, p.entries))
  }

  /** A sound package decodes to itself and to its world. */
  lemma SoundDecodes(pl: Platform, p: Package, w: Snapshot)
    requires Lawful(pl) && Sound(pl, p, w)
    ensures Decoded(pl, PackageBytes(pl, p)) == Some((p, w))
  {
    hide EntryValid, Tracks, Reconstruction, TakePackage, PackageBytes, Lawful;
    PackageReads(pl, p);
    assert LogOf(pl, p) == Exported(pl, w, RecordsOf(pl, p.entries));
    ExportReconstructs(pl, w, RecordsOf(pl, p.entries), [Builtin(pl)]);
  }

  /** Decoding accepts sound packages only, and only in their own bytes. */
  lemma DecodedSound(pl: Platform, b: Bytes)
    requires Decoded(pl, b).Some?
    ensures
      var (p, w) := Decoded(pl, b).value;
      b == PackageBytes(pl, p) && Sound(pl, p, w)
  {
    hide EntryValid, TakePackage, PackageBytes, PackageFits, Reconstruction, Tracks;
    var p := TakePackage(pl, b).value;
    PackageWritten(pl, b);
    ReconstructedTracks(pl, LogOf(pl, p), [Builtin(pl)]);
  }

  /** The package after its first `k` commits. */
  function Cut(pl: Platform, p: Package, k: nat): Package
    requires k <= |p.entries|
  {
    Package(p.config, p.epoch, p.entries[..k], ReceiptsOf(pl, p.entries[..k]))
  }

  lemma CutWhole(pl: Platform, p: Package, w: Snapshot)
    requires Sound(pl, p, w)
    ensures Cut(pl, p, |p.entries|) == p
  {
    assert p.entries[..|p.entries|] == p.entries;
  }

  lemma ReceiptsFit(pl: Platform, p: Package, k: nat)
    requires PackageFits(p) && EntriesValid(pl, p, |p.entries|) && k <= |p.entries|
    ensures forall i :: 0 <= i < |ReceiptsOf(pl, p.entries[..k])| ==> ReceiptFits(ReceiptsOf(pl, p.entries[..k])[i])
  {
    var skip := LowOf(k) - 1;
    forall i | 0 <= i < k - skip
      ensures ReceiptFits(ReceiptsOf(pl, p.entries[..k])[i])
    {
      assert EntryValid(pl, p, skip + i) && EntryFits(p.entries[skip + i]);
      assert ReceiptsOf(pl, p.entries[..k])[i] == ReceiptOf(pl, p.entries[skip + i]);
    }
  }

  /** Every prefix of a sound package is sound, with the world replayed so far. */
  lemma {:induction false} CutSound(pl: Platform, p: Package, w: Snapshot, k: nat)
    requires Sound(pl, p, w) && k <= |p.entries|
    ensures Replayed(pl, LogOf(pl, p), k).Ok?
    ensures Sound(pl, Cut(pl, p, k), Replayed(pl, LogOf(pl, p), k).value)
  {
    hide Tracks, ReceiptFits, HexText, ReceiptOf, EntryValid;
    var log, cut := LogOf(pl, p), Cut(pl, p, k);
    assert Exported(pl, w, RecordsOf(pl, p.entries)) == log;
    TracksPrefix(pl, w, RecordsOf(pl, p.entries), k);
    assert RecordsOf(pl, cut.entries) == RecordsOf(pl, p.entries)[..k];
    ReceiptsFit(pl, p, k);
    CutEntries(pl, p, k);
  }

  lemma CutEntries(pl: Platform, p: Package, k: nat)
    requires k <= |p.entries| && EntriesValid(pl, p, |p.entries|)
    ensures EntriesValid(pl, Cut(pl, p, k), k)
  {
    forall i | 0 <= i < k
      ensures EntryValid(pl, Cut(pl, p, k), i)
    {
      assert EntryValid(pl, p, i);
    }
  }

  // Sizes

  lemma {:induction false} BindingListSize(bs: seq<Binding>, rest: Bytes)
    requires forall i :: 0 <= i < |bs| ==> BindingFits(bs[i])
    ensures |BindingList(bs, rest)| <= 248 * |bs| + |rest|
  {
    if bs != [] {
      BindingListSize(bs[1..], rest);
    }
  }

  lemma {:induction false} EntryListSize(es: seq<Entry>, rest: Bytes)
    requires forall i :: 0 <= i < |es| ==> EntryFits(es[i])
    ensures |EntryList(es, rest)| <= 26000 * |es| + |rest|
  {
    hide LE, BindingList;
    if es != [] {
      EntryListSize(es[1..], rest);
      var after := EntryList(es[1..], rest);
      BindingListSize(es[0].created, Text32(es[0].checkpoint) + after);
    }
  }

  lemma {:induction false} ReceiptListSize(rs: seq<Receipt>, rest: Bytes)
    requires forall i :: 0 <= i < |rs| ==> ReceiptFits(rs[i])
    ensures |ReceiptList(rs, rest)| <= 1100 * |rs| + |rest|
  {
    hide LE, BindingList;
    if rs != [] {
      ReceiptListSize(rs[1..], rest);
      BindingListSize(rs[0].created, LE(0, 4) + ReceiptList(rs[1..], rest));
    }
  }

  /** No package the store can hold reaches the package limit. */
  lemma PackageSize(pl: Platform, p: Package)
    requires Lawful(pl) && PackageFits(p)
    ensures |PackageBytes(pl, p)| <= PACKAGE_LIMIT
  {
    var receipts := LE(|p.receipts|, 4) + ReceiptList(p.receipts, []);
    EntryListSize(p.entries, receipts);
    ReceiptListSize(p.receipts, []);
    hide LE, EntryList, ReceiptList, HexText, EntryFits, ReceiptFits;
    assert |BodyBytes(p)| <= 26000 * 8 + 1100 * 4 + 8;
  }
}
