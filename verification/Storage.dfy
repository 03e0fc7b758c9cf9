/** What each call on the store does to the directory and to memory, with a failure at any point. */
module Storage {
  import opened Prelude
  import opened Texts
  import opened Worlds
  import opened Commands
  import opened PolicyRules
  import opened Batch
  import opened Lifetimes
  import opened Canonical
  import opened Coordinator
  import opened Replay
  import opened Package
  import opened Durable
  import opened Frames
  import opened Recovery

  /** Where a call fails: after an append persisted that many bytes, between steps, or nowhere. */
  datatype Fault =
    | NoFault
    | InAppend(persisted: nat)
    | BeforeAck
    | InScratch(persisted: nat)
    | AfterReplace
    | AfterReclaim

  /** A live store: its package and world, and whether an ambiguous write has sealed it. */
  datatype Memory = Memory(package: Package, world: Snapshot, sealed: bool)

  datatype StoreResult = StoreResult(receipt: Option<Receipt>, replayed: bool, high: nat, low: nat, recovery: bool, code: string)

  datatype Outcome = Outcome(memory: Memory, disk: Disk, result: StoreResult)

  function Plain(m: Memory, code: string): StoreResult {
    StoreResult(None, false, High(m.package), Low(m.package), m.sealed, code)
  }

  function Unknown(m: Memory): StoreResult {
    Plain(m.(sealed := true), "OUTCOME_UNKNOWN")
  }

  function First(b: Bytes, n: nat): (r: Bytes)
    ensures r <= b
  {
    if n < |b| then b[..n] else b
  }

  /** The retained receipts hold one for every sequence from the low- to the high-water mark. */
  predicate Retaining(m: Memory) {
    |m.package.receipts| == High(m.package) + 1 - Low(m.package)
  }

  function Lookup(m: Memory, sequence: nat): StoreResult
    requires Retaining(m)
  {
    if m.sealed then Plain(m, "RECOVERY_REQUIRED")
    else if sequence < Low(m.package) then Plain(m, "REQUIRES_RESYNC")
    else if sequence > High(m.package) then Plain(m, "NOT_FOUND")
    else Plain(m, "").(receipt := Some(m.package.receipts[sequence - Low(m.package)]), replayed := true)
  }

  /** The package with one more commit; only the last receipts are retained. */
  function Extended(pl: Platform, p: Package, e: Envelope, tick: u64, staged: Staged): Package
    requires High(p) + 1 < U64_LIMIT
  {
    var entry := Entry(High(p) + 1, tick, pl.text(e), staged.created, CanonicalBytes(pl, staged.after));
    var receipts := p.receipts + [CommittedReceipt(e, staged).(durability := DURABLE)];
    Package(p.config, p.epoch, p.entries + [entry], if |receipts| > RECEIPT_LIMIT then receipts[1..] else receipts)
  }

  /** Why a command is turned away before it is staged. */
  function Refusal(pl: Platform, p: Package, e: Envelope, tick: u64): Option<string> {
    if e.sequence != High(p) + 1 then Some("SEQUENCE_GAP")
    else if High(p) >= COMMIT_LIMIT then Some("BUDGET_EXCEEDED")
    else if p.entries != [] && tick < p.entries[|p.entries| - 1].tick then Some("INVALID_TICK")
    else None
  }

  /** Why a command is not looked at at all. */
  function Unacceptable(pl: Platform, m: Memory, e: Envelope): Option<string> {
    if m.sealed then Some("RECOVERY_REQUIRED")
    else if !BoundedCommand(e) then Some("BUDGET_EXCEEDED")
    else if Serialize(pl, e).None? then Some("INVALID_SCHEMA")
    else if |Serialize(pl, e).value| > COMMAND_LIMIT then Some("BUDGET_EXCEEDED")
    else if e.epoch != m.package.epoch then Some("EPOCH_MISMATCH")
    else if e.sequence < Low(m.package) then Some("REQUIRES_RESYNC")
    else None
  }

  /** A command at a sequence already used: the original receipt, or a conflict. */
  function Resent(pl: Platform, m: Memory, d: Disk, e: Envelope, fault: Fault): Outcome
    requires Retaining(m) && 1 <= e.sequence <= High(m.package)
  {
    if pl.text(e) != m.package.entries[e.sequence - 1].payload then Outcome(m, d, Plain(m, "IDEMPOTENCY_CONFLICT"))
    else if fault.BeforeAck? then Outcome(m.(sealed := true), d, Unknown(m))
    else Outcome(m, d, Lookup(m, e.sequence))
  }

  /** Why a staged batch cannot be made durable. */
  function Oversized(pl: Platform, d: Disk, q: Package): Option<string> {
    if |q.entries| > 0 && |q.entries[|q.entries| - 1].checkpoint| > CHECKPOINT_LIMIT then Some("BUDGET_EXCEEDED")
    else if |PackageBytes(pl, q)| > PACKAGE_LIMIT then Some("BUDGET_EXCEEDED")
    else if !QuotaAllows(d, q.config, |Frame(pl, q)|) then Some("QUOTA_EXCEEDED")
    else None
  }

  /** Appending the frame of `q`, then publishing. */
  function Appended(pl: Platform, m: Memory, d: Disk, q: Package, staged: Staged, receipt: Receipt, fault: Fault): Outcome {
    var full := d.(journal := d.journal + Frame(pl, q));
    var next := Memory(q, staged.after, false);
    match fault
    case InAppend(n) => Outcome(m.(sealed := true), d.(journal := d.journal + First(Frame(pl, q), n)), Unknown(m))
    case BeforeAck => Outcome(next.(sealed := true), full, Unknown(next))
    case _ => Outcome(next, full, Plain(next, "").(receipt := Some(receipt)))
  }

  function Applied(pl: Platform, m: Memory, d: Disk, e: Envelope, tick: u64, fault: Fault): Outcome
    requires Retaining(m) && High(m.package) + 1 < U64_LIMIT
  {
    var unacceptable := Unacceptable(pl, m, e);
    if unacceptable.Some? then Outcome(m, d, Plain(m, unacceptable.value))
    else if e.sequence <= High(m.package) then Resent(pl, m, d, e, fault)
    else
      var refusal := Refusal(pl, m.package, e, tick);
      if refusal.Some? then Outcome(m, d, Plain(m, refusal.value))
      else
        match Stage(pl, m.world, e, None, None)
        case Err(error) =>
          Outcome(m, d, Plain(m, error.code).(receipt := Some(RejectedReceipt(e, m.world.revision, error, false))))
        case Ok(staged) =>
          var q := Extended(pl, m.package, e, tick, staged);
          var oversized := Oversized(pl, d, q);
          if oversized.Some? then Outcome(m, d, Plain(m, oversized.value))
          else Appended(pl, m, d, q, staged, CommittedReceipt(e, staged).(durability := DURABLE), fault)
  }

  function Compacted(pl: Platform, m: Memory, d: Disk, fault: Fault): Outcome {
    var frame := Frame(pl, m.package);
    if m.sealed then Outcome(m, d, Plain(m, "RECOVERY_REQUIRED"))
    else if |PackageBytes(pl, m.package)| > PACKAGE_LIMIT then Outcome(m, d, Plain(m, "BUDGET_EXCEEDED"))
    else if !QuotaAllows(d, m.package.config, |frame|) then Outcome(m, d, Plain(m, "QUOTA_EXCEEDED"))
    else
      var selected := d.(checkpoint := frame, scratch := None);
      match fault
      case InScratch(n) => Outcome(m.(sealed := true), d.(scratch := Some(First(frame, n))), Unknown(m))
      case AfterReplace => Outcome(m.(sealed := true), selected, Unknown(m))
      case AfterReclaim => Outcome(m.(sealed := true), selected.(journal := []), Unknown(m))
      case _ => Outcome(m, selected.(journal := []), Plain(m, ""))
  }

  // What the calls keep

  /** Memory and directory agree: an unsealed store shows exactly what is durable; a sealed one shows
      that or, when a finished append was never published, one commit less. */
  ghost predicate Agrees(pl: Platform, m: Memory, d: Disk, p: Package, w: Snapshot) {
    && Sound(pl, m.package, m.world) && Extends(m.package, p) && High(p) <= High(m.package) + 1
    && (if m.sealed then Holds(pl, d, p, w) else HoldsClean(pl, d, p, w) && m.package == p && m.world == w)
  }

  lemma SoundRetains(pl: Platform, m: Memory)
    requires Sound(pl, m.package, m.world)
    ensures Retaining(m) && High(m.package) <= COMMIT_LIMIT
  {
    hide EntriesValid, Tracks;
  }

  lemma SoundCommitted(pl: Platform, p: Package, w: Snapshot)
    requires Sound(pl, p, w)
    ensures Committed(w) && p.receipts == ReceiptsOf(pl, p.entries) && w.revision == |p.entries|
    ensures w.worldId == p.config.worldId && w.seed == p.config.seed && w.maxSlots == p.config.maxSlots
    ensures |p.entries| <= COMMIT_LIMIT && PackageFits(p) && EntriesValid(pl, p, |p.entries|)
  {
    hide EntriesValid, Committed, CheckRecords, Replayed, CanonicalBytes, HexText, EntryFits, ReceiptFits;
  }

  /** The retained receipts of the extended package are those of its entries. */
  lemma ExtendedReceipts(pl: Platform, p: Package, e: Envelope, tick: u64, staged: Staged)
    requires Lawful(pl) && ValidEnvelope(pl, e) && High(p) < COMMIT_LIMIT && staged.after.revision == High(p) + 1
    requires p.receipts == ReceiptsOf(pl, p.entries)
    ensures
      var q := Extended(pl, p, e, tick, staged);
      && q.receipts == ReceiptsOf(pl, q.entries)
      && q.receipts[|q.receipts| - 1] == CommittedReceipt(e, staged).(durability := DURABLE)
  {
    hide ValidEnvelope, TextBound, CanonicalBytes;
    var q := Extended(pl, p, e, tick, staged);
    var n := |p.entries|;
    assert q.entries[n].sequence == n + 1 && pl.parse(pl.text(e)) == Some(e);
    assert ReceiptOf(pl, q.entries[n]) == CommittedReceipt(e, staged).(durability := DURABLE);
    forall i | 0 <= i < |ReceiptsOf(pl, q.entries)|
      ensures i < |q.receipts| && q.receipts[i] == ReceiptsOf(pl, q.entries)[i]
    {
    }
  }

  /** The extended package passes every check that opening it will make, and its log rebuilds the new world. */
  lemma ExtendedSound(pl: Platform, m: Memory, e: Envelope, tick: u64)
    requires Lawful(pl) && Sound(pl, m.package, m.world)
    requires Unacceptable(pl, m, e).None? && e.sequence > High(m.package) && Refusal(pl, m.package, e, tick).None?
    requires Stage(pl, m.world, e, None, None).Ok?
    requires |CanonicalBytes(pl, Stage(pl, m.world, e, None, None).value.after)| <= CHECKPOINT_LIMIT
    ensures
      var staged := Stage(pl, m.world, e, None, None).value;
      var q := Extended(pl, m.package, e, tick, staged);
      && Sound(pl, q, staged.after) && Extends(m.package, q) && High(q) == High(m.package) + 1
      && q.receipts[|q.receipts| - 1] == CommittedReceipt(e, staged).(durability := DURABLE)
      && staged.after.revision == High(q)
  {
    hide Sound, Stage, Committed, CanonicalBytes, ValidEnvelope, Tracks, EntriesValid, Evolves, NewIdentities, Lawful, Bounded, EntryFits, ReceiptFits, HexText, ReceiptOf;
    var p, w := m.package, m.world;
    var staged := Stage(pl, w, e, None, None).value;
    var q := Extended(pl, p, e, tick, staged);
    SoundCommitted(pl, p, w);
    StageCommits(pl, w, e, None, None);
    StageHeaders(pl, w, e, None, None);
    ExtendedReceipts(pl, p, e, tick, staged);
    ExtendedEntries(pl, p, e, tick, staged);
    ExtendedTracks(pl, p, w, e, tick);
    ExtendedFits(pl, p, e, tick, staged);
    assert q.entries[..|p.entries|] == p.entries;
    SoundParts(pl, q, staged.after);
  }

  lemma SoundParts(pl: Platform, q: Package, v: Snapshot)
    requires PackageFits(q) && EntriesValid(pl, q, |q.entries|) && q.receipts == ReceiptsOf(pl, q.entries)
    requires v.worldId == q.config.worldId && v.seed == q.config.seed && v.maxSlots == q.config.maxSlots
    requires v.revision == |q.entries| && Tracks(pl, v, RecordsOf(pl, q.entries))
    ensures Sound(pl, q, v)
  {
  }

  lemma ExtendedEntries(pl: Platform, p: Package, e: Envelope, tick: u64, staged: Staged)
    requires Lawful(pl) && ValidEnvelope(pl, e) && BoundedCommand(e) && |pl.text(e)| <= COMMAND_LIMIT
    requires EntriesValid(pl, p, |p.entries|) && Refusal(pl, p, e, tick).None?
    requires e.worldId == p.config.worldId && e.expectedRevision == |p.entries| && e.epoch == p.epoch
    ensures EntriesValid(pl, Extended(pl, p, e, tick, staged), |p.entries| + 1)
  {
    hide CanonicalBytes, Bounded, TextBound;
    LawfulText(pl, e);
    var q := Extended(pl, p, e, tick, staged);
    forall i | 0 <= i < |q.entries|
      ensures EntryValid(pl, q, i)
    {
      if i < |p.entries| {
        assert EntryValid(pl, p, i);
      }
    }
  }

  lemma LawfulText(pl: Platform, e: Envelope)
    requires Lawful(pl) && ValidEnvelope(pl, e)
    ensures pl.parse(pl.text(e)) == Some(e)
  {
    hide ValidEnvelope, TextBound;
  }

  lemma ExtendedFits(pl: Platform, p: Package, e: Envelope, tick: u64, staged: Staged)
    requires PackageFits(p) && EntriesValid(pl, Extended(pl, p, e, tick, staged), |p.entries| + 1)
    requires High(p) < COMMIT_LIMIT && |pl.text(e)| <= COMMAND_LIMIT && |CanonicalBytes(pl, staged.after)| <= CHECKPOINT_LIMIT
    requires Extended(pl, p, e, tick, staged).receipts == ReceiptsOf(pl, Extended(pl, p, e, tick, staged).entries)
    requires BindingsFit(staged.created)
    ensures PackageFits(Extended(pl, p, e, tick, staged))
  {
    hide CanonicalBytes, HexText, EntryValid;
    var q := Extended(pl, p, e, tick, staged);
    forall i | 0 <= i < |q.receipts|
      ensures ReceiptFits(q.receipts[i])
    {
      var k := LowOf(|q.entries|) - 1 + i;
      assert q.receipts[i] == ReceiptOf(pl, q.entries[k]);
      assert EntryFits(q.entries[k]);
      TransactionFits(pl, q, k);
    }
  }

  lemma TransactionFits(pl: Platform, q: Package, k: nat)
    requires k < |q.entries| && EntriesValid(pl, q, |q.entries|)
    ensures |ReceiptOf(pl, q.entries[k]).transactionId| <= 36
  {
    assert EntryValid(pl, q, k);
  }

  lemma ExtendedTracks(pl: Platform, p: Package, w: Snapshot, e: Envelope, tick: u64)
    requires Lawful(pl) && Sound(pl, p, w) && BoundedCommand(e) && |p.entries| < COMMIT_LIMIT
    requires Refusal(pl, p, e, tick).None? && Stage(pl, w, e, None, None).Ok? && |pl.text(e)| <= COMMAND_LIMIT
    requires |CanonicalBytes(pl, Stage(pl, w, e, None, None).value.after)| <= CHECKPOINT_LIMIT
    ensures
      var staged := Stage(pl, w, e, None, None).value;
      && BindingsFit(staged.created)
      && Tracks(pl, staged.after, RecordsOf(pl, Extended(pl, p, e, tick, staged).entries))
  {
    hide Stage, Committed, CanonicalBytes, ValidEnvelope, EntriesValid, Bounded, PackageFits, TextBound, CheckRecords, Replayed, ReceiptsOf;
    StageHeaders(pl, w, e, None, None);
    LawfulText(pl, e);
    var staged := Stage(pl, w, e, None, None).value;
    var records := RecordsOf(pl, p.entries);
    assert Recording(pl, w, records, e, tick, None) == Ok(staged);
    RecordingTracks(pl, w, records, e, tick, None);
    var q := Extended(pl, p, e, tick, staged);
    assert RecordsOf(pl, q.entries) == records + [NewRecord(pl, w, records, e, tick, staged)];
    StagedShaped(pl, w, e, None);
    FewOperations(e);
    ShapedFits(staged.created);
  }

  lemma FewOperations(e: Envelope)
    requires Bounded(e)
    ensures |e.operations| <= 4
  {
  }

  lemma ShapedFits(created: seq<Binding>)
    requires |created| <= 4 && forall k :: 0 <= k < |created| ==> BindingShaped(created[k])
    ensures BindingsFit(created)
  {
  }

  /** A call at any fault point leaves a directory that holds either the package as it was
      or that package with the one commit in flight; an unsealed store agrees with it. */
  lemma AppliedAgrees(pl: Platform, m: Memory, d: Disk, p: Package, w: Snapshot, e: Envelope, tick: u64, fault: Fault)
    returns (q: Package, v: Snapshot)
    requires Lawful(pl) && Agrees(pl, m, d, p, w)
    ensures Retaining(m) && High(m.package) + 1 < U64_LIMIT
    ensures
      var o := Applied(pl, m, d, e, tick, fault);
      && Agrees(pl, o.memory, o.disk, q, v)
      && Extends(p, q) && High(q) <= High(p) + 1
      && (m.sealed ==> q == p)
      && (q != p ==> High(q) == e.sequence == High(p) + 1 && q.entries[High(p)].payload == pl.text(e))
      && (o.result.code == "" ==> q == o.memory.package)
  {
    hide Stage, CanonicalBytes, BoundedCommand, Frame, Sound, Holds, HoldsClean, CommittedReceipt, Extended, PackageBytes;
    SoundRetains(pl, m);
    q, v := p, w;
    var o := Applied(pl, m, d, e, tick, fault);
    if Unacceptable(pl, m, e).Some? {
    } else if e.sequence <= High(m.package) {
      CleanHolds(pl, d, p, w);
    } else if Refusal(pl, m.package, e, tick).None? && Stage(pl, m.world, e, None, None).Ok? {
      var staged := Stage(pl, m.world, e, None, None).value;
      var next := Extended(pl, m.package, e, tick, staged);
      LastCheckpoint(pl, m.package, e, tick, staged);
      if Oversized(pl, d, next).None? {
        ExtendedSound(pl, m, e, tick);
        ExtendedConfig(pl, m.package, e, tick, staged);
        ExtendedPayload(pl, m.package, e, tick, staged);
        AppendHolds(pl, d, p, w, next, staged.after);
        CleanHolds(pl, d.(journal := d.journal + Frame(pl, next)), next, staged.after);
        if fault.InAppend? && fault.persisted < |Frame(pl, next)| {
          SoundCommitted(pl, next, staged.after);
          TornHolds(pl, d, p, w, next, fault.persisted);
        } else {
          q, v := next, staged.after;
        }
      }
    }
  }

  lemma AgreesHeld(pl: Platform, m: Memory, d: Disk, p: Package, w: Snapshot)
    requires Agrees(pl, m, d, p, w)
    ensures Holds(pl, d, p, w) && w.revision == High(p) && p.receipts == ReceiptsOf(pl, p.entries)
  {
    hide Sound, Layout, TornTail, ReceiptsOf;
    if !m.sealed {
      CleanHolds(pl, d, p, w);
    }
    HoldsSound(pl, d, p, w);
    SoundCommitted(pl, p, w);
  }

  lemma HoldsSound(pl: Platform, d: Disk, p: Package, w: Snapshot)
    requires Holds(pl, d, p, w)
    ensures Sound(pl, p, w)
  {
    hide Sound, Layout, TornTail;
  }

  lemma LastCheckpoint(pl: Platform, p: Package, e: Envelope, tick: u64, staged: Staged)
    requires High(p) + 1 < U64_LIMIT
    ensures
      var q := Extended(pl, p, e, tick, staged);
      |q.entries| > 0 && q.entries[|q.entries| - 1].checkpoint == CanonicalBytes(pl, staged.after)
  {
  }

  lemma ExtendedPayload(pl: Platform, p: Package, e: Envelope, tick: u64, staged: Staged)
    requires High(p) + 1 < U64_LIMIT
    ensures Extended(pl, p, e, tick, staged).entries[High(p)].payload == pl.text(e)
    ensures Extended(pl, p, e, tick, staged).entries[High(p)].created == staged.created
  {
  }

  lemma ExtendedConfig(pl: Platform, p: Package, e: Envelope, tick: u64, staged: Staged)
    requires High(p) + 1 < U64_LIMIT
    ensures Extended(pl, p, e, tick, staged).config == p.config
  {
  }

  /** Compaction never changes what the directory holds, wherever it fails. */
  lemma CompactedAgrees(pl: Platform, m: Memory, d: Disk, p: Package, w: Snapshot, fault: Fault)
    requires Lawful(pl) && Agrees(pl, m, d, p, w)
    ensures
      var o := Compacted(pl, m, d, fault);
      Agrees(pl, o.memory, o.disk, p, w) && o.memory.package == m.package
  {
    hide Frame, Sound, Holds, HoldsClean, PackageBytes;
    var o := Compacted(pl, m, d, fault);
    if !m.sealed && QuotaAllows(d, m.package.config, |Frame(pl, m.package)|) && |PackageBytes(pl, m.package)| <= PACKAGE_LIMIT {
      var frame := Frame(pl, p);
      var selected := d.(checkpoint := frame, scratch := None);
      ReplaceHolds(pl, d, p, w);
      ReclaimHolds(pl, selected, p, w);
      CleanHolds(pl, selected, p, w);
      CleanHolds(pl, selected.(journal := []), p, w);
      if fault.InScratch? {
        FrameFits(pl, p, w);
        ScratchHolds(pl, d, p, w, First(frame, fault.persisted));
      }
    }
  }

  /** A compaction succeeds unless the store is sealed, the frame exceeds the quota or something fails; then the new
      checkpoint is all the directory has, and it alone opens to the same package and world. Failing only after that
      leaves the same directory, and a sealed store. */
  lemma CompactedReclaims(pl: Platform, m: Memory, d: Disk, p: Package, w: Snapshot, fault: Fault)
    requires Lawful(pl) && Agrees(pl, m, d, p, w)
    ensures
      var o := Compacted(pl, m, d, fault);
      && (o.result.code == "" <==>
            && !m.sealed && |Frame(pl, p)| <= p.config.quota - Used(d)
            && !fault.InScratch? && !fault.AfterReplace? && !fault.AfterReclaim?)
      && (o.result.code == "" || (fault.AfterReclaim? && o.result.code == "OUTCOME_UNKNOWN") ==>
            && o.disk.checkpoint == Frame(pl, p) && o.disk.journal == [] && o.disk.scratch == None && Used(o.disk) == |Frame(pl, p)|
            && Opening(pl, o.disk) == Ok(Opened(p, w, 0))
            && o.memory.package == p && o.memory.world == w && o.memory.sealed == fault.AfterReclaim?)
  {
    hide Sound, Holds, HoldsClean, Opening, Frame, PackageBytes, Extends;
    var o := Compacted(pl, m, d, fault);
    if !m.sealed {
      SoundFits(pl, d, p, w);
      if QuotaAllows(d, p.config, |Frame(pl, p)|) && !fault.InScratch? && !fault.AfterReplace? {
        CompactedAgrees(pl, m, d, p, w, fault);
        AgreesHeld(pl, o.memory, o.disk, p, w);
        OpensTo(pl, o.disk, p, w);
      }
    }
  }

  lemma SoundFits(pl: Platform, d: Disk, p: Package, w: Snapshot)
    requires Lawful(pl) && HoldsClean(pl, d, p, w)
    ensures |PackageBytes(pl, p)| <= PACKAGE_LIMIT
    ensures Used(d) <= p.config.quota && QuotaAllows(d, p.config, |Frame(pl, p)|) == (|Frame(pl, p)| <= p.config.quota - Used(d))
  {
    hide Sound, Frame, PackageBytes, Layout;
    FrameFits(pl, p, w);
    QuotaBound(pl, p, w);
  }

  // Exactly once

  /** Sending an accepted command again, while it is retained, returns the original receipt and changes nothing. */
  lemma ResendReturnsOriginal(pl: Platform, m: Memory, d: Disk, e: Envelope, tick: u64)
    requires Lawful(pl) && Sound(pl, m.package, m.world) && !m.sealed
    requires ValidEnvelope(pl, e) && BoundedCommand(e) && e.epoch == m.package.epoch
    requires Low(m.package) <= e.sequence <= High(m.package)
    requires Retaining(m) && High(m.package) + 1 < U64_LIMIT
    ensures
      var o := Applied(pl, m, d, e, tick, NoFault);
      var entry := m.package.entries[e.sequence - 1];
      && o.memory == m && o.disk == d
      && (pl.text(e) == entry.payload <==> o.result.receipt.Some?)
      && (pl.text(e) == entry.payload ==>
            o.result.receipt == Some(Receipt(COMMITTED, DURABLE, e.transactionId, e.sequence, entry.created, [])))
      && (pl.text(e) != entry.payload ==> o.result.code == "IDEMPOTENCY_CONFLICT")
  {
    hide Sound, ValidEnvelope, Bounded, Stage, ReceiptOf, CanonicalBytes, TextBound;
    SoundCommitted(pl, m.package, m.world);
    BoundedText(e);
    LawfulSize(pl, e);
    LawfulText(pl, e);
    var i := e.sequence - Low(m.package);
    assert m.package.receipts[i] == ReceiptOf(pl, m.package.entries[e.sequence - 1]);
    ResentReceipt(pl, m.package, e);
  }

  lemma LawfulSize(pl: Platform, e: Envelope)
    requires Lawful(pl) && ValidEnvelope(pl, e)
    ensures |pl.text(e)| <= TextBound(e)
  {
    hide ValidEnvelope, TextBound;
  }

  lemma ResentReceipt(pl: Platform, p: Package, e: Envelope)
    requires EntriesValid(pl, p, |p.entries|) && 1 <= e.sequence <= |p.entries| && pl.parse(pl.text(e)) == Some(e)
    ensures pl.text(e) == p.entries[e.sequence - 1].payload ==>
      ReceiptOf(pl, p.entries[e.sequence - 1])
      == Receipt(COMMITTED, DURABLE, e.transactionId, e.sequence, p.entries[e.sequence - 1].created, [])
  {
    assert EntryValid(pl, p, e.sequence - 1);
  }

  /** A commit is the only thing that changes the live world, and its sequence is the new revision;
      DurableOnce says the same of the directory. */
  lemma CommitOnce(pl: Platform, m: Memory, d: Disk, e: Envelope, tick: u64, fault: Fault)
    requires Lawful(pl) && Sound(pl, m.package, m.world) && Retaining(m) && High(m.package) + 1 < U64_LIMIT
    ensures
      var o := Applied(pl, m, d, e, tick, fault);
      && (o.memory.package != m.package ==>
            && e.sequence == High(m.package) + 1 == High(o.memory.package) == o.memory.world.revision
            && m.package.entries <= o.memory.package.entries
            && o.memory.package.entries[e.sequence - 1].payload == pl.text(e)
            && (o.result.code == "" ==> o.result.receipt == Some(
                  Receipt(COMMITTED, DURABLE, e.transactionId, e.sequence, o.memory.package.entries[e.sequence - 1].created, []))))
      && (o.memory.package == m.package ==> o.memory.world == m.world)
      && o.memory.package.receipts == ReceiptsOf(pl, o.memory.package.entries)
  {
    hide Stage, CanonicalBytes, BoundedCommand, Frame, Sound, PackageBytes, ReceiptsOf;
    SoundCommitted(pl, m.package, m.world);
    if Unacceptable(pl, m, e).None? && e.sequence > High(m.package) && Refusal(pl, m.package, e, tick).None? && Stage(pl, m.world, e, None, None).Ok? {
      var staged := Stage(pl, m.world, e, None, None).value;
      var next := Extended(pl, m.package, e, tick, staged);
      if Oversized(pl, d, next).None? {
        ExtendedSound(pl, m, e, tick);
        ExtendedPayload(pl, m.package, e, tick, staged);
        SoundCommitted(pl, next, staged.after);
      }
    }
  }

  /** What the directory holds changes only by this commit, under its own sequence, which is the revision of the world the
      directory then rebuilds. */
  lemma DurableOnce(pl: Platform, m: Memory, d: Disk, p: Package, w: Snapshot, e: Envelope, tick: u64, fault: Fault)
    returns (q: Package, v: Snapshot)
    requires Lawful(pl) && Agrees(pl, m, d, p, w)
    ensures Retaining(m) && High(m.package) + 1 < U64_LIMIT
    ensures
      var o := Applied(pl, m, d, e, tick, fault);
      && Holds(pl, o.disk, q, v) && v.revision == High(q) && q.receipts == ReceiptsOf(pl, q.entries) && Extends(p, q)
      && (q != p ==> High(q) == e.sequence == High(p) + 1 && q.entries[High(p)].payload == pl.text(e))
  {
    hide Agrees, Applied, Holds, ReceiptsOf;
    q, v := AppliedAgrees(pl, m, d, p, w, e, tick, fault);
    var o := Applied(pl, m, d, e, tick, fault);
    AgreesHeld(pl, o.memory, o.disk, q, v);
  }

  // When a command commits

  /** What a caller has to meet for a new commit. */
  predicate Committable(pl: Platform, m: Memory, d: Disk, e: Envelope, tick: u64)
    requires High(m.package) + 1 < U64_LIMIT
  {
    && !m.sealed && BoundedCommand(e) && ValidEnvelope(pl, e)
    && e.epoch == m.package.epoch && e.sequence == High(m.package) + 1 && High(m.package) < COMMIT_LIMIT
    && (m.package.entries != [] ==> m.package.entries[|m.package.entries| - 1].tick <= tick)
    && Stage(pl, m.world, e, None, None).Ok?
    && var staged := Stage(pl, m.world, e, None, None).value;
       && |CanonicalBytes(pl, staged.after)| <= CHECKPOINT_LIMIT
       && Used(d) + |Frame(pl, Extended(pl, m.package, e, tick, staged))| <= m.package.config.quota
  }

  /** The retained command is sent again. */
  predicate Resends(pl: Platform, m: Memory, e: Envelope) {
    && !m.sealed && BoundedCommand(e) && ValidEnvelope(pl, e) && e.epoch == m.package.epoch
    && Low(m.package) <= e.sequence <= High(m.package) && e.sequence >= 1
    && pl.text(e) == m.package.entries[e.sequence - 1].payload
  }

  lemma AcceptableExact(pl: Platform, m: Memory, e: Envelope)
    requires Lawful(pl)
    ensures Unacceptable(pl, m, e).None? <==>
      !m.sealed && BoundedCommand(e) && ValidEnvelope(pl, e) && e.epoch == m.package.epoch && e.sequence >= Low(m.package)
    ensures Unacceptable(pl, m, e) == Some("RECOVERY_REQUIRED") <==> m.sealed
  {
    hide ValidEnvelope, TextBound, Bounded, Lawful;
    if BoundedCommand(e) && ValidEnvelope(pl, e) {
      BoundedText(e);
      LawfulSize(pl, e);
    }
  }

  /** Nothing but the limits of a caller's own quota and of a checkpoint stops a staged commit. */
  lemma SizesExact(pl: Platform, m: Memory, d: Disk, p: Package, w: Snapshot, e: Envelope, tick: u64)
    requires Lawful(pl) && Agrees(pl, m, d, p, w) && !m.sealed && High(m.package) + 1 < U64_LIMIT
    requires Unacceptable(pl, m, e).None? && Refusal(pl, m.package, e, tick).None? && Stage(pl, m.world, e, None, None).Ok?
    ensures
      var staged := Stage(pl, m.world, e, None, None).value;
      var q := Extended(pl, m.package, e, tick, staged);
      Oversized(pl, d, q).None? <==>
        |CanonicalBytes(pl, staged.after)| <= CHECKPOINT_LIMIT && Used(d) + |Frame(pl, q)| <= m.package.config.quota
  {
    hide Sound, Stage, CanonicalBytes, Frame, PackageBytes, Layout, BoundedCommand, Serialize, Extended, Lawful;
    var staged := Stage(pl, m.world, e, None, None).value;
    var q := Extended(pl, m.package, e, tick, staged);
    LastCheckpoint(pl, m.package, e, tick, staged);
    ExtendedConfig(pl, m.package, e, tick, staged);
    QuotaBound(pl, p, w);
    if |CanonicalBytes(pl, staged.after)| <= CHECKPOINT_LIMIT {
      ExtendedSound(pl, m, e, tick);
      FrameFits(pl, q, staged.after);
    }
  }

  /** A command commits exactly when it may and its append is not cut short; a store is sealed exactly by a failure that
      leaves the outcome open; and success is answered exactly for a commit or for the retained command sent again. */
  lemma CommitExact(pl: Platform, m: Memory, d: Disk, p: Package, w: Snapshot, e: Envelope, tick: u64, fault: Fault)
    requires Lawful(pl) && Agrees(pl, m, d, p, w)
    ensures Retaining(m) && High(m.package) + 1 < U64_LIMIT
    ensures
      var o := Applied(pl, m, d, e, tick, fault);
      var (commits, resends) := (Committable(pl, m, d, e, tick), Resends(pl, m, e));
      && (High(o.memory.package) == High(m.package) + 1 <==> commits && !fault.InAppend?)
      && (o.memory.sealed <==> m.sealed || (commits && (fault.InAppend? || fault.BeforeAck?)) || (resends && fault.BeforeAck?))
      && (o.result.receipt.Some? && o.result.receipt.value.status == COMMITTED ==>
            (commits && !fault.InAppend? && !fault.BeforeAck?) || (resends && !fault.BeforeAck?))
      && (commits && !fault.InAppend? && !fault.BeforeAck? ==> o.result.receipt.Some? && o.result.receipt.value.status == COMMITTED)
      && (resends && !fault.BeforeAck? ==> o.result.receipt.Some? && o.result.replayed)
      && (o.result.recovery <==> o.memory.sealed)
  {
    hide Sound, Stage, CanonicalBytes, Frame, PackageBytes, Layout, BoundedCommand, ValidEnvelope, Lawful, Holds, HoldsClean, Oversized;
    SoundRetains(pl, m);
    AcceptableExact(pl, m, e);
    RefusalExact(pl, m.package, e, tick);
    if Unacceptable(pl, m, e).None? && Refusal(pl, m.package, e, tick).None? && Stage(pl, m.world, e, None, None).Ok? {
      SizesExact(pl, m, d, p, w, e, tick);
      ExtendedHigh(pl, m.package, e, tick, Stage(pl, m.world, e, None, None).value);
    }
    StatusTells();
    hide Refusal, Unacceptable, Extended;
  }

  lemma RefusalExact(pl: Platform, p: Package, e: Envelope, tick: u64)
    ensures Refusal(pl, p, e, tick).None? <==>
      e.sequence == High(p) + 1 && High(p) < COMMIT_LIMIT && (p.entries != [] ==> p.entries[|p.entries| - 1].tick <= tick)
  {
  }

  lemma ExtendedHigh(pl: Platform, p: Package, e: Envelope, tick: u64, staged: Staged)
    requires High(p) + 1 < U64_LIMIT
    ensures High(Extended(pl, p, e, tick, staged)) == High(p) + 1
  {
  }
}
