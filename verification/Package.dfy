/** The durable package: every commit so far with the last receipts, as one block of bytes. */
module Package {
  import opened Prelude
  import opened Texts
  import opened Readers
  import opened Worlds
  import opened Commands
  import opened Batch
  import opened Lifetimes
  import opened Canonical
  import opened Replay

  const COMMIT_LIMIT := 8
  const OPERATION_BOUND := 4
  const RECEIPT_LIMIT := 4
  const PACKAGE_LIMIT := 0x40000
  const MAXIMUM_QUOTA := 0x80_0000
  const PACKAGE_MAGIC := Ascii("OWPKG001")

  datatype Config = Config(worldId: Text, seed: u32, maxSlots: u32, quota: u64)
  datatype Entry = Entry(sequence: u64, tick: u64, payload: Bytes, created: seq<Binding>, checkpoint: Bytes)
  datatype Package = Package(config: Config, epoch: Text, entries: seq<Entry>, receipts: seq<Receipt>)

  function High(p: Package): nat {
    |p.entries|
  }

  function LowOf(high: nat): nat {
    if high > RECEIPT_LIMIT then high - RECEIPT_LIMIT + 1 else 1
  }

  function Low(p: Package): nat {
    LowOf(High(p))
  }

  predicate ValidConfig(c: Config) {
    c.worldId != [] && |c.worldId| <= 128 && 1 <= c.maxSlots <= 8 && c.quota <= MAXIMUM_QUOTA
  }

  // Writing: each function puts its bytes in front of `rest`.

  function BindingBytes(b: Binding, rest: Bytes): Bytes {
    Text32(b.temporaryId) + (Text32(b.worldId) + (Text32(b.uuid) + (LE(b.generation, 8) + rest)))
  }

  function BindingList(bs: seq<Binding>, rest: Bytes): Bytes {
    if bs == [] then rest else BindingBytes(bs[0], BindingList(bs[1..], rest))
  }

  function BindingsBytes(bs: seq<Binding>, rest: Bytes): Bytes {
    LE(|bs|, 4) + BindingList(bs, rest)
  }

  function EntryBytes(e: Entry, rest: Bytes): Bytes {
    LE(e.sequence, 8) + (LE(e.tick, 8) + (Text32(e.payload) + BindingsBytes(e.created, Text32(e.checkpoint) + rest)))
  }

  function EntryList(es: seq<Entry>, rest: Bytes): Bytes {
    if es == [] then rest else EntryBytes(es[0], EntryList(es[1..], rest))
  }

  /** Only committed receipts are stored; the number of their errors is written as zero. */
  function ReceiptBytes(r: Receipt, rest: Bytes): Bytes {
    Text32(r.status) + (Text32(r.durability) + (Text32(r.transactionId) + (LE(r.worldRevision, 8)
    + BindingsBytes(r.created, LE(0, 4) + rest))))
  }

  function ReceiptList(rs: seq<Receipt>, rest: Bytes): Bytes {
    if rs == [] then rest else ReceiptBytes(rs[0], ReceiptList(rs[1..], rest))
  }

  function ConfigBytes(c: Config, rest: Bytes): Bytes {
    Text32(c.worldId) + (LE(c.seed, 4) + (LE(c.maxSlots, 4) + (LE(c.quota, 8) + rest)))
  }

  function BodyBytes(p: Package): Bytes {
    LE(|p.entries|, 4) + EntryList(p.entries, LE(|p.receipts|, 4) + ReceiptList(p.receipts, []))
  }

  function MarksBytes(pl: Platform, epoch: Text, high: nat, rest: Bytes): Bytes {
    Text32(epoch) + (LE(high, 8) + (LE(LowOf(high), 8) + (Text32(pl.manifest) + (Text32(pl.manifestSha) + rest))))
  }

  function PackageBytes(pl: Platform, p: Package): Bytes {
    PACKAGE_MAGIC + ConfigBytes(p.config, MarksBytes(pl, p.epoch, High(p), BodyBytes(p)))
  }

  method WriteBindings(w: Writer, bs: seq<Binding>, ghost rest: Bytes)
    requires |bs| < U32_LIMIT
    modifies w
    ensures w.bytes + rest == old(w.bytes) + BindingsBytes(bs, rest)
  {
    hide LE, Text32;
    w.U32(|bs|, BindingList(bs, rest));
    var i := 0;
    while i < |bs|
      invariant i <= |bs|
      invariant w.bytes + BindingList(bs[i..], rest) == old(w.bytes) + BindingsBytes(bs, rest)
    {
      var b := bs[i];
      ghost var after := BindingList(bs[i + 1..], rest);
      assert bs[i..][0] == b && bs[i..][1..] == bs[i + 1..];
      w.Text(b.temporaryId, Text32(b.worldId) + (Text32(b.uuid) + (LE(b.generation, 8) + after)));
      w.Text(b.worldId, Text32(b.uuid) + (LE(b.generation, 8) + after));
      w.Text(b.uuid, LE(b.generation, 8) + after);
      w.U64(b.generation, after);
      i := i + 1;
    }
  }

  method WriteEntries(w: Writer, es: seq<Entry>, ghost rest: Bytes)
    requires forall i :: 0 <= i < |es| ==> |es[i].created| < U32_LIMIT
    modifies w
    ensures w.bytes + rest == old(w.bytes) + EntryList(es, rest)
  {
    hide LE, Text32, BindingsBytes;
    var i := 0;
    while i < |es|
      invariant i <= |es|
      invariant w.bytes + EntryList(es[i..], rest) == old(w.bytes) + EntryList(es, rest)
    {
      var e := es[i];
      ghost var after := EntryList(es[i + 1..], rest);
      ghost var block := BindingsBytes(e.created, Text32(e.checkpoint) + after);
      assert es[i..][0] == e && es[i..][1..] == es[i + 1..];
      w.U64(e.sequence, LE(e.tick, 8) + (Text32(e.payload) + block));
      w.U64(e.tick, Text32(e.payload) + block);
      w.Text(e.payload, block);
      WriteBindings(w, e.created, Text32(e.checkpoint) + after);
      w.Text(e.checkpoint, after);
      i := i + 1;
    }
  }

  method WriteReceipts(w: Writer, rs: seq<Receipt>, ghost rest: Bytes)
    requires forall i :: 0 <= i < |rs| ==> |rs[i].created| < U32_LIMIT
    modifies w
    ensures w.bytes + rest == old(w.bytes) + ReceiptList(rs, rest)
  {
    hide LE, Text32, BindingsBytes;
    var i := 0;
    while i < |rs|
      invariant i <= |rs|
      invariant w.bytes + ReceiptList(rs[i..], rest) == old(w.bytes) + ReceiptList(rs, rest)
    {
      var r := rs[i];
      ghost var after := ReceiptList(rs[i + 1..], rest);
      ghost var block := BindingsBytes(r.created, LE(0, 4) + after);
      assert rs[i..][0] == r && rs[i..][1..] == rs[i + 1..];
      w.Text(r.status, Text32(r.durability) + (Text32(r.transactionId) + (LE(r.worldRevision, 8) + block)));
      w.Text(r.durability, Text32(r.transactionId) + (LE(r.worldRevision, 8) + block));
      w.Text(r.transactionId, LE(r.worldRevision, 8) + block);
      w.U64(r.worldRevision, block);
      WriteBindings(w, r.created, LE(0, 4) + after);
      w.U32(0, after);
      i := i + 1;
    }
  }

  /** The counts a package holds fit their fields. */
  predicate Counted(p: Package) {
    && |p.entries| < U32_LIMIT && |p.receipts| < U32_LIMIT
    && (forall i :: 0 <= i < |p.entries| ==> |p.entries[i].created| < U32_LIMIT)
    && (forall i :: 0 <= i < |p.receipts| ==> |p.receipts[i].created| < U32_LIMIT)
  }

  /** Encodes a package, unless it is too large. */
  method Encode(pl: Platform, p: Package) returns (r: Result<Bytes, string>)
    requires Counted(p)
    ensures r == if |PackageBytes(pl, p)| > PACKAGE_LIMIT then Err("BUDGET_EXCEEDED") else Ok(PackageBytes(pl, p))
  {
    hide LE, Text32, EntryList, ReceiptList;
    ghost var receipts := LE(|p.receipts|, 4) + ReceiptList(p.receipts, []);
    ghost var body := BodyBytes(p);
    ghost var assets := Text32(pl.manifest) + (Text32(pl.manifestSha) + body);
    ghost var marks := LE(High(p), 8) + (LE(Low(p), 8) + assets);
    ghost var config := ConfigBytes(p.config, Text32(p.epoch) + marks);
    var w := new Writer();
    w.Raw(PACKAGE_MAGIC, config);
    w.Text(p.config.worldId, LE(p.config.seed, 4) + (LE(p.config.maxSlots, 4) + (LE(p.config.quota, 8) + (Text32(p.epoch) + marks))));
    w.U32(p.config.seed, LE(p.config.maxSlots, 4) + (LE(p.config.quota, 8) + (Text32(p.epoch) + marks)));
    w.U32(p.config.maxSlots, LE(p.config.quota, 8) + (Text32(p.epoch) + marks));
    w.U64(p.config.quota, Text32(p.epoch) + marks);
    w.Text(p.epoch, marks);
    w.U64(High(p), LE(Low(p), 8) + assets);
    w.U64(Low(p), assets);
    w.Text(pl.manifest, Text32(pl.manifestSha) + body);
    w.Text(pl.manifestSha, body);
    w.U32(|p.entries|, EntryList(p.entries, receipts));
    WriteEntries(w, p.entries, receipts);
    w.U32(|p.receipts|, ReceiptList(p.receipts, []));
    WriteReceipts(w, p.receipts, []);
    assert w.bytes == w.bytes + [] == [] + PackageBytes(pl, p) == PackageBytes(pl, p);
    if |w.bytes| > PACKAGE_LIMIT {
      return Err("BUDGET_EXCEEDED");
    }
    return Ok(w.bytes);
  }

  // Reading

  function TakeBinding(b: Bytes): Option<(Binding, Bytes)> {
    var (id, b1) :- TakeText(b, 64);
    var (world, b2) :- TakeText(b1, 128);
    var (uuid, b3) :- TakeText(b2, 36);
    var (generation, rest) :- TakeU64(b3);
    Some((Binding(id, world, uuid, generation), rest))
  }

  function TakeBindingList(b: Bytes, n: nat): Option<(seq<Binding>, Bytes)>
    decreases n
  {
    if n == 0 then Some(([], b))
    else
      var (first, b1) :- TakeBinding(b);
      var (others, rest) :- TakeBindingList(b1, n - 1);
      Some(([first] + others, rest))
  }

  function TakeBindings(b: Bytes): Option<(seq<Binding>, Bytes)> {
    var (n, b1) :- TakeU32(b);
    if n <= OPERATION_BOUND then TakeBindingList(b1, n) else None
  }

  function TakeEntry(b: Bytes): Option<(Entry, Bytes)> {
    var (sequence, b1) :- TakeU64(b);
    var (tick, b2) :- TakeU64(b1);
    var (payload, b3) :- TakeText(b2, COMMAND_LIMIT);
    var (created, b4) :- TakeBindings(b3);
    var (checkpoint, rest) :- TakeText(b4, CHECKPOINT_LIMIT);
    Some((Entry(sequence, tick, payload, created, checkpoint), rest))
  }

  function TakeEntries(b: Bytes, n: nat): (r: Option<(seq<Entry>, Bytes)>)
    ensures r.Some? ==> |r.value.0| == n
    decreases n
  {
    if n == 0 then Some(([], b))
    else
      var (first, b1) :- TakeEntry(b);
      var (others, rest) :- TakeEntries(b1, n - 1);
      Some(([first] + others, rest))
  }

  function TakeReceipt(b: Bytes): Option<(Receipt, Bytes)> {
    var (status, b1) :- TakeText(b, 16);
    var (durability, b2) :- TakeText(b1, 16);
    var (id, b3) :- TakeText(b2, 36);
    var (revision, b4) :- TakeU64(b3);
    var (created, b5) :- TakeBindings(b4);
    var (errors, rest) :- TakeU32(b5);
    if errors == 0 then Some((Receipt(status, durability, id, revision, created, []), rest)) else None
  }

  function TakeReceipts(b: Bytes, n: nat): (r: Option<(seq<Receipt>, Bytes)>)
    ensures r.Some? ==> |r.value.0| == n
    decreases n
  {
    if n == 0 then Some(([], b))
    else
      var (first, b1) :- TakeReceipt(b);
      var (others, rest) :- TakeReceipts(b1, n - 1);
      Some(([first] + others, rest))
  }

  function TakeConfig(b: Bytes): Option<(Config, Bytes)> {
    var (worldId, b1) :- TakeText(b, 128);
    var (seed, b2) :- TakeU32(b1);
    var (maxSlots, b3) :- TakeU32(b2);
    var (quota, rest) :- TakeU64(b3);
    var c := Config(worldId, seed, maxSlots, quota);
    if ValidConfig(c) then Some((c, rest)) else None
  }

  function TakeBody(b: Bytes, high: nat): Option<(seq<Entry>, seq<Receipt>)> {
    var (count, b1) :- TakeU32(b);
    if count != high then None
    else
      var (entries, b2) :- TakeEntries(b1, count);
      var (retained, b3) :- TakeU32(b2);
      if retained > RECEIPT_LIMIT then None
      else
        var (receipts, rest) :- TakeReceipts(b3, retained);
        if rest == [] then Some((entries, receipts)) else None
  }

  /** The epoch, the high-water mark, and the pinned assets. */
  function TakeMarks(pl: Platform, b: Bytes): Option<(Text, u64, Bytes)> {
    var (epoch, b2) :- TakeText(b, 64);
    if |epoch| != 64 || !HexText(epoch) then None
    else
      var (high, b3) :- TakeU64(b2);
      var (low, b4) :- TakeU64(b3);
      if high > COMMIT_LIMIT || low != LowOf(high) then None
      else
        var (manifest, b5) :- TakeText(b4, 4096);
        var (digest, rest) :- TakeText(b5, 64);
        if manifest != pl.manifest || digest != pl.manifestSha then None else Some((epoch, high, rest))
  }

  /** The package written in `b`, with its entries not yet examined. */
  function TakePackage(pl: Platform, b: Bytes): Option<Package> {
    var b0 :- TakeMagic(b, PACKAGE_MAGIC);
    var (config, b1) :- TakeConfig(b0);
    var (epoch, high, b2) :- TakeMarks(pl, b1);
    var (entries, receipts) :- TakeBody(b2, high);
    Some(Package(config, epoch, entries, receipts))
  }

  // The fields a written value must have for the reader to accept it

  predicate BindingFits(b: Binding) {
    |b.temporaryId| <= 64 && |b.worldId| <= 128 && |b.uuid| <= 36
  }

  predicate BindingsFit(bs: seq<Binding>) {
    |bs| <= OPERATION_BOUND && forall i :: 0 <= i < |bs| ==> BindingFits(bs[i])
  }

  predicate EntryFits(e: Entry) {
    |e.payload| <= COMMAND_LIMIT && BindingsFit(e.created) && |e.checkpoint| <= CHECKPOINT_LIMIT
  }

  predicate ReceiptFits(r: Receipt) {
    |r.status| <= 16 && |r.durability| <= 16 && |r.transactionId| <= 36 && BindingsFit(r.created) && r.errors == []
  }

  predicate PackageFits(p: Package) {
    && ValidConfig(p.config) && |p.epoch| == 64 && HexText(p.epoch)
    && |p.entries| <= COMMIT_LIMIT && |p.receipts| <= RECEIPT_LIMIT
    && (forall i :: 0 <= i < |p.entries| ==> EntryFits(p.entries[i]))
    && (forall i :: 0 <= i < |p.receipts| ==> ReceiptFits(p.receipts[i]))
  }

  lemma BindingReads(b: Binding, rest: Bytes)
    requires BindingFits(b)
    ensures TakeBinding(BindingBytes(b, rest)) == Some((b, rest))
  {
    hide TakeText, TakeU64, LE, Text32;
    var t := LE(b.generation, 8) + rest;
    TextReads(b.temporaryId, Text32(b.worldId) + (Text32(b.uuid) + t), 64);
    TextReads(b.worldId, Text32(b.uuid) + t, 128);
    TextReads(b.uuid, t, 36);
    U64Reads(b.generation, rest);
  }

  lemma {:induction false} BindingListReads(bs: seq<Binding>, rest: Bytes)
    requires forall i :: 0 <= i < |bs| ==> BindingFits(bs[i])
    ensures TakeBindingList(BindingList(bs, rest), |bs|) == Some((bs, rest))
  {
    hide TakeBinding, BindingBytes, BindingFits;
    if bs != [] {
      BindingReads(bs[0], BindingList(bs[1..], rest));
      BindingListReads(bs[1..], rest);
      assert bs == [bs[0]] + bs[1..];
    }
  }

  lemma BindingsRead(bs: seq<Binding>, rest: Bytes)
    requires BindingsFit(bs)
    ensures TakeBindings(BindingsBytes(bs, rest)) == Some((bs, rest))
  {
    hide TakeU32, LE, BindingFits;
    U32Reads(|bs|, BindingList(bs, rest));
    BindingListReads(bs, rest);
  }

  lemma EntryReads(e: Entry, rest: Bytes)
    requires EntryFits(e)
    ensures TakeEntry(EntryBytes(e, rest)) == Some((e, rest))
  {
    hide TakeText, TakeU64, LE, Text32, TakeBindings, BindingsBytes;
    var block := BindingsBytes(e.created, Text32(e.checkpoint) + rest);
    U64Reads(e.sequence, LE(e.tick, 8) + (Text32(e.payload) + block));
    U64Reads(e.tick, Text32(e.payload) + block);
    TextReads(e.payload, block, COMMAND_LIMIT);
    BindingsRead(e.created, Text32(e.checkpoint) + rest);
    TextReads(e.checkpoint, rest, CHECKPOINT_LIMIT);
  }

  lemma {:induction false} EntriesRead(es: seq<Entry>, rest: Bytes)
    requires forall i :: 0 <= i < |es| ==> EntryFits(es[i])
    ensures TakeEntries(EntryList(es, rest), |es|) == Some((es, rest))
  {
    hide TakeEntry, EntryBytes, EntryFits;
    if es != [] {
      EntryReads(es[0], EntryList(es[1..], rest));
      EntriesRead(es[1..], rest);
      assert es == [es[0]] + es[1..];
    }
  }

  lemma ReceiptReads(r: Receipt, rest: Bytes)
    requires ReceiptFits(r)
    ensures TakeReceipt(ReceiptBytes(r, rest)) == Some((r, rest))
  {
    hide TakeText, TakeU64, TakeU32, LE, Text32, TakeBindings, BindingsBytes;
    var block := BindingsBytes(r.created, LE(0, 4) + rest);
    TextReads(r.status, Text32(r.durability) + (Text32(r.transactionId) + (LE(r.worldRevision, 8) + block)), 16);
    TextReads(r.durability, Text32(r.transactionId) + (LE(r.worldRevision, 8) + block), 16);
    TextReads(r.transactionId, LE(r.worldRevision, 8) + block, 36);
    U64Reads(r.worldRevision, block);
    BindingsRead(r.created, LE(0, 4) + rest);
    U32Reads(0, rest);
  }

  lemma {:induction false} ReceiptsRead(rs: seq<Receipt>, rest: Bytes)
    requires forall i :: 0 <= i < |rs| ==> ReceiptFits(rs[i])
    ensures TakeReceipts(ReceiptList(rs, rest), |rs|) == Some((rs, rest))
  {
    hide TakeReceipt, ReceiptBytes, ReceiptFits;
    if rs != [] {
      ReceiptReads(rs[0], ReceiptList(rs[1..], rest));
      ReceiptsRead(rs[1..], rest);
      assert rs == [rs[0]] + rs[1..];
    }
  }

  lemma BodyReads(p: Package)
    requires PackageFits(p)
    ensures TakeBody(BodyBytes(p), High(p)) == Some((p.entries, p.receipts))
  {
    hide TakeU32, LE, EntryFits, ReceiptFits, HexText;
    var receipts := LE(|p.receipts|, 4) + ReceiptList(p.receipts, []);
    U32Reads(|p.entries|, EntryList(p.entries, receipts));
    EntriesRead(p.entries, receipts);
    U32Reads(|p.receipts|, ReceiptList(p.receipts, []));
    ReceiptsRead(p.receipts, []);
  }

  lemma ConfigReads(c: Config, rest: Bytes)
    requires ValidConfig(c)
    ensures TakeConfig(ConfigBytes(c, rest)) == Some((c, rest))
  {
    hide TakeText, TakeU64, TakeU32, LE, Text32;
    TextReads(c.worldId, LE(c.seed, 4) + (LE(c.maxSlots, 4) + (LE(c.quota, 8) + rest)), 128);
    U32Reads(c.seed, LE(c.maxSlots, 4) + (LE(c.quota, 8) + rest));
    U32Reads(c.maxSlots, LE(c.quota, 8) + rest);
    U64Reads(c.quota, rest);
  }

  lemma MarksRead(pl: Platform, epoch: Text, high: nat, rest: Bytes)
    requires Lawful(pl) && |epoch| == 64 && HexText(epoch) && high <= COMMIT_LIMIT
    ensures TakeMarks(pl, MarksBytes(pl, epoch, high, rest)) == Some((epoch, high, rest))
  {
    hide TakeText, TakeU64, LE, Text32, HexText;
    var assets := Text32(pl.manifest) + (Text32(pl.manifestSha) + rest);
    TextReads(epoch, LE(high, 8) + (LE(LowOf(high), 8) + assets), 64);
    U64Reads(high, LE(LowOf(high), 8) + assets);
    U64Reads(LowOf(high), assets);
    TextReads(pl.manifest, Text32(pl.manifestSha) + rest, 4096);
    TextReads(pl.manifestSha, rest, 64);
  }

  /** Reading back what was written gives the package. */
  lemma PackageReads(pl: Platform, p: Package)
    requires Lawful(pl) && PackageFits(p)
    ensures TakePackage(pl, PackageBytes(pl, p)) == Some(p)
  {
    hide TakeMagic, TakeBody, BodyBytes, TakeConfig, ConfigBytes, ValidConfig, HexText, EntryFits, ReceiptFits, Lawful, TakeMarks, MarksBytes;
    var marks := MarksBytes(pl, p.epoch, High(p), BodyBytes(p));
    MagicReads(PACKAGE_MAGIC, ConfigBytes(p.config, marks));
    ConfigReads(p.config, marks);
    MarksRead(pl, p.epoch, High(p), BodyBytes(p));
    BodyReads(p);
  }

  // Nothing else is accepted: what is read is what was written.

  lemma BindingWritten(b: Bytes)
    ensures TakeBinding(b).Some? ==>
      var (v, rest) := TakeBinding(b).value;
      b == BindingBytes(v, rest) && BindingFits(v)
  {
    hide TakeText, TakeU64, LE, Text32;
    if TakeBinding(b).Some? {
      var (id, b1) := TakeText(b, 64).value;
      var (world, b2) := TakeText(b1, 128).value;
      var (uuid, b3) := TakeText(b2, 36).value;
      TextWritten(b, 64);
      TextWritten(b1, 128);
      TextWritten(b2, 36);
      U64Written(b3);
    }
  }

  lemma {:induction false} BindingListWritten(b: Bytes, n: nat)
    ensures TakeBindingList(b, n).Some? ==>
      var (v, rest) := TakeBindingList(b, n).value;
      |v| == n && b == BindingList(v, rest) && forall i :: 0 <= i < n ==> BindingFits(v[i])
    decreases n
  {
    hide TakeBinding, BindingBytes, BindingFits;
    if n > 0 && TakeBindingList(b, n).Some? {
      BindingWritten(b);
      BindingListWritten(TakeBinding(b).value.1, n - 1);
      var v := TakeBindingList(b, n).value.0;
      assert v[1..] == TakeBindingList(TakeBinding(b).value.1, n - 1).value.0;
    }
  }

  lemma BindingsWritten(b: Bytes)
    ensures TakeBindings(b).Some? ==>
      var (v, rest) := TakeBindings(b).value;
      b == BindingsBytes(v, rest) && BindingsFit(v)
  {
    hide TakeU32, LE, BindingFits, TakeBindingList, BindingList;
    U32Written(b);
    if TakeBindings(b).Some? {
      BindingListWritten(TakeU32(b).value.1, TakeU32(b).value.0);
    }
  }

  lemma EntryWritten(b: Bytes)
    ensures TakeEntry(b).Some? ==>
      var (v, rest) := TakeEntry(b).value;
      b == EntryBytes(v, rest) && EntryFits(v)
  {
    hide TakeText, TakeU64, LE, Text32, TakeBindings, BindingsBytes, BindingsFit;
    if TakeEntry(b).Some? {
      var (_, b1) := TakeU64(b).value;
      var (_, b2) := TakeU64(b1).value;
      var (_, b3) := TakeText(b2, COMMAND_LIMIT).value;
      var (_, b4) := TakeBindings(b3).value;
      U64Written(b);
      U64Written(b1);
      TextWritten(b2, COMMAND_LIMIT);
      BindingsWritten(b3);
      TextWritten(b4, CHECKPOINT_LIMIT);
    }
  }

  lemma {:induction false} EntriesWritten(b: Bytes, n: nat)
    ensures TakeEntries(b, n).Some? ==>
      var (v, rest) := TakeEntries(b, n).value;
      b == EntryList(v, rest) && forall i :: 0 <= i < n ==> EntryFits(v[i])
    decreases n
  {
    hide TakeEntry, EntryBytes, EntryFits;
    if n > 0 && TakeEntries(b, n).Some? {
      EntryWritten(b);
      EntriesWritten(TakeEntry(b).value.1, n - 1);
      var v := TakeEntries(b, n).value.0;
      assert v[1..] == TakeEntries(TakeEntry(b).value.1, n - 1).value.0;
    }
  }

  lemma ReceiptWritten(b: Bytes)
    ensures TakeReceipt(b).Some? ==>
      var (v, rest) := TakeReceipt(b).value;
      b == ReceiptBytes(v, rest) && ReceiptFits(v)
  {
    hide TakeText, TakeU64, TakeU32, LE, Text32, TakeBindings, BindingsBytes, BindingsFit;
    if TakeReceipt(b).Some? {
      var (_, b1) := TakeText(b, 16).value;
      var (_, b2) := TakeText(b1, 16).value;
      var (_, b3) := TakeText(b2, 36).value;
      var (_, b4) := TakeU64(b3).value;
      var (_, b5) := TakeBindings(b4).value;
      TextWritten(b, 16);
      TextWritten(b1, 16);
      TextWritten(b2, 36);
      U64Written(b3);
      BindingsWritten(b4);
      U32Written(b5);
    }
  }

  lemma {:induction false} ReceiptsWritten(b: Bytes, n: nat)
    ensures TakeReceipts(b, n).Some? ==>
      var (v, rest) := TakeReceipts(b, n).value;
      b == ReceiptList(v, rest) && forall i :: 0 <= i < n ==> ReceiptFits(v[i])
    decreases n
  {
    hide TakeReceipt, ReceiptBytes, ReceiptFits;
    if n > 0 && TakeReceipts(b, n).Some? {
      ReceiptWritten(b);
      ReceiptsWritten(TakeReceipt(b).value.1, n - 1);
      var v := TakeReceipts(b, n).value.0;
      assert v[1..] == TakeReceipts(TakeReceipt(b).value.1, n - 1).value.0;
    }
  }

  lemma BodyWritten(b: Bytes, high: nat)
    ensures TakeBody(b, high).Some? ==>
      var (entries, receipts) := TakeBody(b, high).value;
      && |entries| == high && |receipts| <= RECEIPT_LIMIT
      && b == LE(|entries|, 4) + EntryList(entries, LE(|receipts|, 4) + ReceiptList(receipts, []))
      && (forall i :: 0 <= i < |entries| ==> EntryFits(entries[i]))
      && forall i :: 0 <= i < |receipts| ==> ReceiptFits(receipts[i])
  {
    hide TakeU32, LE, EntryFits, ReceiptFits, EntryList, ReceiptList, TakeEntries, TakeReceipts;
    if TakeBody(b, high).Some? {
      var (count, b1) := TakeU32(b).value;
      var (entries, b2) := TakeEntries(b1, count).value;
      var (retained, b3) := TakeU32(b2).value;
      U32Written(b);
      EntriesWritten(b1, count);
      U32Written(b2);
      ReceiptsWritten(b3, retained);
    }
  }

  lemma ConfigWritten(b: Bytes)
    ensures TakeConfig(b).Some? ==>
      var (c, rest) := TakeConfig(b).value;
      b == ConfigBytes(c, rest) && ValidConfig(c)
  {
    hide TakeText, TakeU64, TakeU32, LE, Text32;
    if TakeConfig(b).Some? {
      var (_, b1) := TakeText(b, 128).value;
      var (_, b2) := TakeU32(b1).value;
      var (_, b3) := TakeU32(b2).value;
      TextWritten(b, 128);
      U32Written(b1);
      U32Written(b2);
      U64Written(b3);
    }
  }

  lemma MarksWritten(pl: Platform, b: Bytes)
    ensures TakeMarks(pl, b).Some? ==>
      var (epoch, high, rest) := TakeMarks(pl, b).value;
      b == MarksBytes(pl, epoch, high, rest) && |epoch| == 64 && HexText(epoch) && high <= COMMIT_LIMIT
  {
    hide TakeText, TakeU64, LE, Text32, HexText;
    if TakeMarks(pl, b).Some? {
      var (_, b2) := TakeText(b, 64).value;
      var (_, b3) := TakeU64(b2).value;
      var (_, b4) := TakeU64(b3).value;
      var (_, b5) := TakeText(b4, 4096).value;
      TextWritten(b, 64);
      U64Written(b2);
      U64Written(b3);
      TextWritten(b4, 4096);
      TextWritten(b5, 64);
    }
  }

  /** The bytes of a package that reads are exactly the bytes that package writes. */
  lemma PackageWritten(pl: Platform, b: Bytes)
    ensures TakePackage(pl, b).Some? ==> b == PackageBytes(pl, TakePackage(pl, b).value) && PackageFits(TakePackage(pl, b).value)
  {
    hide TakeMagic, TakeBody, TakeConfig, ConfigBytes, ValidConfig, HexText, EntryFits, ReceiptFits, EntryList, ReceiptList, TakeMarks, MarksBytes;
    if TakePackage(pl, b).Some? {
      var b0 := TakeMagic(b, PACKAGE_MAGIC).value;
      var (_, b1) := TakeConfig(b0).value;
      var (_, high, b2) := TakeMarks(pl, b1).value;
      MagicWritten(b, PACKAGE_MAGIC);
      ConfigWritten(b0);
      MarksWritten(pl, b1);
      BodyWritten(b2, high);
    }
  }
}
