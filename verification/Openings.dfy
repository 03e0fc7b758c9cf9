/** Which directories open: exactly those that hold a package, and what opening them finds. */
module Openings {
  import opened Prelude
  import opened Texts
  import opened Worlds
  import opened Commands
  import opened Batch
  import opened Canonical
  import opened Package
  import opened Durable
  import Replay
  import opened Frames
  import opened Recovery
  import opened Storage

  lemma Cuts(b: Bytes, i: nat, j: nat)
    requires i <= j <= |b|
    ensures b[..j] == b[..i] + b[i..j]
  {
  }

  /** What the reader has checked of a complete frame. */
  lemma FrameChecked(pl: Platform, b: Bytes)
    requires ReadFrame(pl, b).Whole?
    ensures
      var found := ReadFrame(pl, b);
      var end := HEADER_SIZE + |found.payload|;
      && found.size == end + 40 <= |b| && |found.payload| <= PACKAGE_LIMIT && found.high <= COMMIT_LIMIT
      && |found.payload| == FromLE(b[8..12]) && found.high == FromLE(b[12..20])
      && b[..8] == FRAME_MAGIC && b[20..HEADER_SIZE] == pl.sha(b[..20]) && b[HEADER_SIZE..end] == found.payload
      && b[end..end + 32] == pl.sha(b[..end]) && b[end + 32..end + 40] == END_MAGIC
  {
    hide FromLE;
  }

  /** Whatever is read as a complete frame has exactly the octets of that frame. */
  lemma FrameWritten(pl: Platform, b: Bytes)
    requires ReadFrame(pl, b).Whole?
    ensures
      var found := ReadFrame(pl, b);
      && |found.payload| <= PACKAGE_LIMIT && found.high <= COMMIT_LIMIT && found.size == |FrameBytes(pl, found.payload, found.high)|
      && found.size <= |b| && b[..found.size] == FrameBytes(pl, found.payload, found.high)
  {
    hide ReadFrame, LE, FromLE;
    FrameChecked(pl, b);
    var found := ReadFrame(pl, b);
    var end := HEADER_SIZE + |found.payload|;
    WriteBackLE(b[8..12]);
    WriteBackLE(b[12..20]);
    Cuts(b, 8, 12);
    Cuts(b, 12, 20);
    assert b[..20] == Head(|found.payload|, found.high);
    hide Head;
    Cuts(b, 20, HEADER_SIZE);
    Cuts(b, HEADER_SIZE, end);
    Cuts(b, end, end + 32);
    Cuts(b, end + 32, end + 40);
  }

  /** A sound package that another one continues is a cut of it, with the world of that point. */
  lemma EarlierCut(pl: Platform, c: Package, v: Snapshot, p: Package, w: Snapshot)
    requires Lawful(pl) && Sound(pl, c, v) && Sound(pl, p, w) && Extends(c, p)
    ensures High(c) <= |p.entries| && c == Cut(pl, p, High(c)) && v == WorldAt(pl, p, w, High(c))
  {
    hide Lawful, EntriesValid, PackageFits, WorldAt, ReceiptsOf;
    assert p.entries[..|c.entries|] == c.entries;
    WorldUnique(pl, c, v, p, w);
  }

  lemma WorldUnique(pl: Platform, c: Package, v: Snapshot, p: Package, w: Snapshot)
    requires Lawful(pl) && Sound(pl, c, v) && Sound(pl, p, w) && High(c) <= |p.entries| && c == Cut(pl, p, High(c))
    ensures v == WorldAt(pl, p, w, High(c))
  {
    hide Lawful, Sound, Decoded;
    CutReads(pl, p, w, High(c), []);
    SoundDecodes(pl, c, v);
  }

  lemma SoundParts(pl: Platform, p: Package, w: Snapshot)
    requires Sound(pl, p, w)
    ensures High(p) == |p.entries|
  {
    hide EntriesValid, PackageFits, ReceiptsOf;
  }

  /** What the journal loop carries is sound, and belongs together. */
  ghost predicate ScanSound(pl: Platform, selected: Package, chosen: Snapshot, scan: Scan) {
    && Sound(pl, selected, chosen) && Sound(pl, scan.package, scan.world) && Extends(selected, scan.package)
    && (scan.prior.Some? ==>
          && (exists v :: Sound(pl, scan.prior.value, v)) && Extends(scan.prior.value, scan.package)
          && (High(scan.package) == High(selected) || High(scan.package) == High(scan.prior.value)))
    && (scan.prior.None? ==> scan.package == selected)
  }

  /** A frame the loop takes keeps that. */
  lemma FrameTaken(pl: Platform, selected: Package, chosen: Snapshot, scan: Scan, found: Found)
    requires Lawful(pl) && ScanSound(pl, selected, chosen, scan) && found.Whole? && ScanFrame(pl, selected, scan, found).Some?
    ensures
      var next := ScanFrame(pl, selected, scan, found).value;
      && ScanSound(pl, selected, chosen, next) && next.prior.Some? && High(next.prior.value) == found.high >= 1
      && found.payload == PackageBytes(pl, next.prior.value) && Extends(scan.package, next.package)
      && (if scan.prior.Some? then found.high == High(scan.prior.value) + 1 else found.high <= High(selected) + 1)
      && High(next.package) == (if found.high > High(scan.package) then found.high else High(scan.package))
  {
    hide Lawful, Sound, Decoded, PackageBytes;
    DecodedSound(pl, found.payload);
    var (c, v) := Decoded(pl, found.payload).value;
    assert Sound(pl, c, v);
  }

  /** The journal is the frames of the commits after the `a`-th up to the `m`-th, and what is left of one more. */
  predicate JournalIs(pl: Platform, b: Bytes, p: Package, a: nat, m: nat, tail: Bytes) {
    a <= m <= |p.entries| && b == JournalFrames(pl, p, a, m) + tail && Unfinished(pl, tail)
  }

  /** Whatever journal the loop accepts consists of consecutive frames of the package it ends with. */
  lemma {:induction false} ScanAccepts(pl: Platform, b: Bytes, selected: Package, chosen: Snapshot, scan: Scan)
    returns (a: nat, m: nat, tail: Bytes)
    requires Lawful(pl) && ScanSound(pl, selected, chosen, scan) && ScanJournal(pl, b, selected, scan).Some?
    ensures
      var (last, kept) := ScanJournal(pl, b, selected, scan).value;
      var p := last.package;
      && Sound(pl, p, last.world) && Extends(scan.package, p) && JournalIs(pl, b, p, a, m, tail) && kept == |b| - |tail|
      && (if scan.prior.Some? then a == High(scan.prior.value) else a <= High(selected))
      && High(p) == (if m > High(scan.package) then m else High(scan.package))
    decreases |b|
  {
    hide Lawful, ReadFrame, Frame, FrameBytes, PackageBytes, ScanFrame, Sound;
    if b == [] || ReadFrame(pl, b).Torn? {
      a := if scan.prior.Some? then High(scan.prior.value) else High(selected);
      m, tail := a, b;
      StopsHere(pl, selected, chosen, scan, a);
      assert JournalFrames(pl, scan.package, a, a) + b == b;
    } else {
      var found := ReadFrame(pl, b);
      var next := ScanFrame(pl, selected, scan, found).value;
      FrameTaken(pl, selected, chosen, scan, found);
      var a', m', tail' := ScanAccepts(pl, b[found.size..], selected, chosen, next);
      a, m, tail := found.high - 1, m', tail';
      FrameWritten(pl, b);
      var (last, kept) := ScanJournal(pl, b[found.size..], selected, next).value;
      var v :| Sound(pl, next.prior.value, v);
      ExtendsOn(next.prior.value, next.package, last.package);
      ExtendsOn(scan.package, next.package, last.package);
      EarlierCut(pl, next.prior.value, v, last.package, last.world);
      FrontFrame(pl, b, last.package, found, a', m', tail');
    }
  }

  lemma ExtendsOn(a: Package, b: Package, c: Package)
    requires Extends(a, b) && Extends(b, c)
    ensures Extends(a, c)
  {
  }

  lemma StopsHere(pl: Platform, selected: Package, chosen: Snapshot, scan: Scan, a: nat)
    requires ScanSound(pl, selected, chosen, scan) && a == if scan.prior.Some? then High(scan.prior.value) else High(selected)
    ensures a <= |scan.package.entries| && a <= High(scan.package)
  {
    hide Sound;
  }

  lemma FrontFrame(pl: Platform, b: Bytes, p: Package, found: Found, a: nat, m: nat, tail: Bytes)
    requires found.Whole? && 1 <= found.high == a && found.size <= |b|
    requires JournalIs(pl, b[found.size..], p, a, m, tail)
    requires b[..found.size] == FrameBytes(pl, found.payload, found.high) && found.payload == PackageBytes(pl, Cut(pl, p, a))
    ensures JournalIs(pl, b, p, a - 1, m, tail)
  {
    hide FrameBytes, PackageBytes, Unfinished;
    assert b == b[..found.size] + b[found.size..];
    Flat2(Frame(pl, Cut(pl, p, a)), JournalFrames(pl, p, a, m), tail);
  }

  // Opening

  /** The checkpoint holds the first `c` commits, the journal those after the first `a` up to the `m`-th, and together they
      are all of `p`; nothing is larger than it may be. */
  ghost predicate Keeping(pl: Platform, d: Disk, p: Package, w: Snapshot, c: nat, a: nat, m: nat, tail: Bytes) {
    && Sound(pl, p, w) && c <= |p.entries| && a <= c && JournalIs(pl, d.journal, p, a, m, tail)
    && (c == |p.entries| || m == |p.entries|)
    && d.checkpoint == Frame(pl, Cut(pl, p, c))
    && |d.journal| <= JOURNAL_LIMIT && Used(d) <= p.config.quota && (d.scratch.Some? ==> |d.scratch.value| <= FRAME_LIMIT)
  }

  /** What such a directory opens to. */
  lemma KeepingOpens(pl: Platform, d: Disk, p: Package, w: Snapshot, c: nat, a: nat, m: nat, tail: Bytes)
    requires Lawful(pl) && Keeping(pl, d, p, w, c, a, m, tail)
    ensures Opening(pl, d) == Ok(Opened(p, w, |d.journal| - |tail|))
  {
    hide Sound, Lawful, ReadFrame, Frame, PackageBytes, WorldAt, JournalFrames, Unfinished, Selected, ScanJournal, Cut;
    QuotaBound(pl, p, w);
    SelectedReads(pl, p, w, c);
    ScanFrames(pl, p, w, c, a, a, m, tail);
    CutWhole(pl, p, w);
    WorldAtEnd(pl, p, w);
    assert ScanAt(pl, p, w, c, a, a) == Scan(None, Cut(pl, p, c), WorldAt(pl, p, w, c));
  }

  lemma SelectedWritten(pl: Platform, checkpoint: Bytes)
    requires Lawful(pl) && Selected(pl, checkpoint).Some?
    ensures
      var (p, w) := Selected(pl, checkpoint).value;
      Sound(pl, p, w) && checkpoint == Frame(pl, p)
  {
    hide ReadFrame, FrameBytes, PackageBytes, Decoded, Sound, Lawful;
    FrameWritten(pl, checkpoint);
    DecodedSound(pl, ReadFrame(pl, checkpoint).payload);
    assert checkpoint[..|checkpoint|] == checkpoint;
  }

  /** Whatever opens is such a directory. */
  lemma OpenedKeeps(pl: Platform, d: Disk) returns (c: nat, a: nat, m: nat, tail: Bytes)
    requires Lawful(pl) && Opening(pl, d).Ok?
    ensures
      var o := Opening(pl, d).value;
      Keeping(pl, d, o.package, o.world, c, a, m, tail) && o.kept == |d.journal| - |tail|
  {
    hide ReadFrame, Frame, PackageBytes, Sound, Lawful, Selected, ScanJournal;
    SelectedWritten(pl, d.checkpoint);
    var (p, w) := Selected(pl, d.checkpoint).value;
    a, m, tail := ScanAccepts(pl, d.journal, p, w, Scan(None, p, w));
    c := High(p);
    var o := Opening(pl, d).value;
    EarlierCut(pl, p, w, o.package, o.world);
    HighIs(o.package);
  }

  lemma HighIs(p: Package)
    ensures High(p) == |p.entries|
  {
  }

  /** A directory opens if and only if its checkpoint is the frame of some of the commits of a package, its journal the
      frames of consecutive further ones up to the last, possibly with the beginning of a frame behind them; and what
      opening finds is that package with its world, keeping exactly the complete frames. */
  lemma OpeningExact(pl: Platform, d: Disk, p: Package, w: Snapshot, kept: nat)
    requires Lawful(pl)
    ensures Opening(pl, d) == Ok(Opened(p, w, kept)) <==>
      exists c, a, m, tail :: Keeping(pl, d, p, w, c, a, m, tail) && kept == |d.journal| - |tail|
  {
    hide Keeping, Opening, Lawful;
    if Opening(pl, d) == Ok(Opened(p, w, kept)) {
      var c, a, m, tail := OpenedKeeps(pl, d);
      assert Keeping(pl, d, p, w, c, a, m, tail);
    }
    if c, a, m, tail :| Keeping(pl, d, p, w, c, a, m, tail) && kept == |d.journal| - |tail| {
      KeepingOpens(pl, d, p, w, c, a, m, tail);
      TailWithin(pl, d, p, w, c, a, m, tail);
    }
  }

  lemma TailWithin(pl: Platform, d: Disk, p: Package, w: Snapshot, c: nat, a: nat, m: nat, tail: Bytes)
    requires Keeping(pl, d, p, w, c, a, m, tail)
    ensures |tail| <= |d.journal|
  {
    hide Sound, JournalFrames, Frame;
  }

  // What a sound package says

  /** What a batch does depends on its headers only by whether they are accepted. */
  lemma SameStage(pl: Platform, s: Snapshot, e: Envelope, again: Envelope, bindings: Option<seq<Binding>>)
    requires Stage(pl, s, e, None, bindings).Ok? && ValidEnvelope(pl, again)
    requires again.worldId == s.worldId && again.expectedRevision == s.revision && again.operations == e.operations
    ensures Stage(pl, s, again, None, bindings) == Stage(pl, s, e, None, bindings)
  {
    hide Steps, Close, ValidEnvelope;
  }

  /** The world before entry `i`, the command of that entry and the world after it belong together: the command is the
      canonical one of that place, staging it creates exactly the recorded identities, and its checkpoint is the encoding of
      the world it leads to. While it is retained its receipt says just that. */
  lemma SoundHistory(pl: Platform, p: Package, w: Snapshot, i: nat)
    requires Lawful(pl) && Sound(pl, p, w) && i < |p.entries|
    ensures pl.parse(p.entries[i].payload).Some?
    ensures
      var (entry, e) := (p.entries[i], pl.parse(p.entries[i].payload).value);
      && ValidEnvelope(pl, e) && pl.text(e) == entry.payload && e.worldId == p.config.worldId && e.epoch == p.epoch
      && e.sequence == i + 1 == entry.sequence && e.expectedRevision == i && (i > 0 ==> p.entries[i - 1].tick <= entry.tick)
      && (i + 1 >= Low(p) ==>
            && i + 1 - Low(p) < |p.receipts|
            && p.receipts[i + 1 - Low(p)] == Receipt(COMMITTED, DURABLE, e.transactionId, i + 1, entry.created, []))
    ensures
      var (entry, e) := (p.entries[i], pl.parse(p.entries[i].payload).value);
      var r := Stage(pl, WorldAt(pl, p, w, i), e, None, Some(entry.created));
      && r.Ok? && r.value.after == WorldAt(pl, p, w, i + 1) && r.value.created == entry.created
      && entry.checkpoint == CanonicalBytes(pl, WorldAt(pl, p, w, i + 1))
  {
    EntryMeans(pl, p, w, i);
    var e := pl.parse(p.entries[i].payload).value;
    EntryReplays(pl, p, w, i);
    hide Sound, Lawful, Stage, ValidEnvelope, WorldAt, EntryValid, CanonicalBytes;
  }

  lemma EntryMeans(pl: Platform, p: Package, w: Snapshot, i: nat)
    requires Lawful(pl) && Sound(pl, p, w) && i < |p.entries|
    ensures pl.parse(p.entries[i].payload).Some?
    ensures
      var (entry, e) := (p.entries[i], pl.parse(p.entries[i].payload).value);
      && ValidEnvelope(pl, e) && pl.text(e) == entry.payload && e.worldId == p.config.worldId && e.epoch == p.epoch
      && e.sequence == i + 1 == entry.sequence && e.expectedRevision == i && (i > 0 ==> p.entries[i - 1].tick <= entry.tick)
      && RecordOf(pl, entry, i).operations == e.operations
      && (i + 1 >= Low(p) ==>
            && i + 1 - Low(p) < |p.receipts|
            && p.receipts[i + 1 - Low(p)] == Receipt(COMMITTED, DURABLE, e.transactionId, i + 1, entry.created, []))
  {
    hide Lawful, ValidEnvelope, Bounded, PackageFits, Replay.Tracks, ReceiptsOf;
    assert EntryValid(pl, p, i);
    if i + 1 >= Low(p) {
      ReceiptAt(pl, p.entries, i);
    }
  }

  lemma ReceiptAt(pl: Platform, entries: seq<Entry>, i: nat)
    requires LowOf(|entries|) <= i + 1 <= |entries|
    ensures i + 1 - LowOf(|entries|) < |ReceiptsOf(pl, entries)|
    ensures ReceiptsOf(pl, entries)[i + 1 - LowOf(|entries|)] == ReceiptOf(pl, entries[i])
  {
  }

  lemma EntryReplays(pl: Platform, p: Package, w: Snapshot, i: nat)
    requires Lawful(pl) && Sound(pl, p, w) && i < |p.entries|
    ensures pl.parse(p.entries[i].payload).Some?
    ensures
      var (entry, e) := (p.entries[i], pl.parse(p.entries[i].payload).value);
      var r := Stage(pl, WorldAt(pl, p, w, i), e, None, Some(entry.created));
      && r.Ok? && r.value.after == WorldAt(pl, p, w, i + 1) && r.value.created == entry.created
      && entry.checkpoint == CanonicalBytes(pl, WorldAt(pl, p, w, i + 1))
  {
    EntryMeans(pl, p, w, i);
    WorldsReplayed(pl, p, w, i);
    hide Sound, Lawful, Stage, ValidEnvelope, WorldAt, EntryValid, CanonicalBytes, Replay.Replayed;
    var (log, entry, e) := (LogOf(pl, p), p.entries[i], pl.parse(p.entries[i].payload).value);
    var s := WorldAt(pl, p, w, i);
    Replay.ReplayedCommitted(pl, log, i);
    SameStage(pl, s, Replay.Rebuilt(log, log.records[i]), e, Some(entry.created));
  }

  lemma WorldsReplayed(pl: Platform, p: Package, w: Snapshot, i: nat)
    requires Sound(pl, p, w) && i < |p.entries|
    ensures
      var log := LogOf(pl, p);
      && Replay.Replayed(pl, log, i) == Ok(WorldAt(pl, p, w, i))
      && Replay.ReplayOne(pl, log, WorldAt(pl, p, w, i), log.records[i]) == Ok(WorldAt(pl, p, w, i + 1))
  {
    hide Sound, Cut, Replay.ReplayOne;
    SoundCommitted(pl, p, w);
    CutSound(pl, p, w, i);
    CutSound(pl, p, w, i + 1);
    LastRecord(pl, LogOf(pl, p), i);
    hide Replay.Replayed;
  }

  lemma LastRecord(pl: Platform, log: Replay.Log, i: nat)
    requires i < |log.records| && Replay.Replayed(pl, log, i).Ok?
    ensures Replay.Replayed(pl, log, i + 1) == Replay.ReplayOne(pl, log, Replay.Replayed(pl, log, i).value, log.records[i])
  {
    hide Replay.ReplayOne;
  }

  /** Looking a sequence up gives the durable receipt of the command committed under it, while that is retained. */
  lemma LookupExact(pl: Platform, m: Memory, sequence: nat)
    requires Lawful(pl) && Sound(pl, m.package, m.world)
    ensures Retaining(m)
    ensures m.sealed ==> Lookup(m, sequence) == Plain(m, "RECOVERY_REQUIRED")
    ensures !m.sealed && sequence < Low(m.package) ==> Lookup(m, sequence) == Plain(m, "REQUIRES_RESYNC")
    ensures !m.sealed && sequence > |m.package.entries| ==> Lookup(m, sequence) == Plain(m, "NOT_FOUND")
    ensures !m.sealed && Low(m.package) <= sequence <= |m.package.entries| ==>
      var entry := m.package.entries[sequence - 1];
      && pl.parse(entry.payload).Some?
      && Lookup(m, sequence) ==
           Plain(m, "").(receipt := Some(Receipt(COMMITTED, DURABLE, pl.parse(entry.payload).value.transactionId, sequence, entry.created, [])),
                         replayed := true)
  {
    SoundRetains(pl, m);
    HighIs(m.package);
    if !m.sealed && Low(m.package) <= sequence <= |m.package.entries| {
      EntryMeans(pl, m.package, m.world, sequence - 1);
    }
    hide Sound, Lawful, ValidEnvelope;
  }
}
